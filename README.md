# mojido core, modelled in Dafny

mojido is a typing trainer for Japanese. The learner types romaji for a
sentence of kana. The app checks each keystroke against the kana and keeps
per-character statistics. From those statistics it schedules reviews and
chooses the next sentence at a difficulty that adapts to the learner.

This project models the core of that system and proves properties of it:

- `romaji.dfy` (module `Romaji`) holds the kana tables and katakana folding.
  It also holds the tokenizer, which splits hiragana into phonetic units, and
  the keystroke matcher `matchRomaji`, with its rules for the small tsu (っ)
  and the nasal (ん). It ends with the typing hint `needsDoubleN` and the
  punctuation test.
- `adaptive.dfy` (module `Adaptive`) holds the learning engine:
  - the intrinsic difficulty of a character, the composite mastery score,
    mastery levels and review scheduling;
  - sentence analysis and sentence difficulty;
  - the level filter, the fit score and the weighted selection of the next
    sentence;
  - the difficulty adjustment, the speed baseline and the overall skill.
- `db.dfy` (module `Db`) is the persistence layer as an in-memory database.
  It holds the `progress`, `user_profile` and `daily_activity` tables, the
  derived mastery view, the mastery upsert, the due-for-review query and the
  day streak.
- `session.dfy` (module `Session`) is the practice session store. It is a
  class whose state is changed by the session operations. At the end of each
  sentence it writes mastery updates and a profile update to the database.
- `sentences.dfy` (module `Sentences`) holds the built-in corpus and the
  original selector `selectSentence`.
- `generate_sentences.dfy` (module `GenerateSentences`) holds the filters of
  the offline corpus generator. They decide which characters are kanji,
  which sentences to keep, and what difficulty a kept sentence gets.
- `options.dfy`, `numbers.dfy` and `sorting.dfy` are shared support:
  - an `Option` type;
  - `Min`, `Max`, `Clamp`, the `x > 0 ? a / x : 0` ratio, and the index
    `Math.floor(roll * n)`;
  - a stable insertion sort by a real key, which stands in for
    `Array.prototype.sort` and for `ORDER BY`.

These source features are written out explicitly in the model:

- Numbers are `real`, and counters are `nat`.
- JavaScript `null` and `undefined` are `Option`.
- JavaScript's falsy tests appear as explicit cases. A zero timestamp counts
  as missing. A zero average time falls back to the baseline. An empty
  spelling doubles to the text `"undefined"`.
- Randomness, the clock and `Math.sqrt` are parameters. The random draws are
  `roll` and `pick`, each in [0, 1). The clock is `now` and `today`. The
  square root is `root`, which is only assumed to be non-negative.

## Model

| member | source | states |
|---|---|---|
| Romaji.HiraganaRomaji | src/lib/utils/romaji.ts:2-154 | every key of the hiragana table has one or two characters, and every entry lists at least one spelling, none of them empty |
| Romaji.HiraganaSingleKeys | src/lib/utils/romaji.ts:2-154 | every one-character key is a hiragana letter or the prolonged sound mark |
| Romaji.HiraganaSingleEntries | src/lib/utils/romaji.ts:2-154 | every one-character entry lists at least one spelling, none of them empty |
| Romaji.HiraganaPairEntries | src/lib/utils/romaji.ts:114-148 | every combination entry lists at least one spelling, none of them empty |
| Romaji.KatakanaToHiraganaShift | src/lib/utils/romaji.ts:157-239 | every entry of the katakana table maps a katakana letter down by 0x60, except ー, which maps to itself |
| Romaji.KatakanaToHiraganaKeys | src/lib/utils/romaji.ts:157-239 | every key of the katakana table is a katakana letter or ー |
| Romaji.KatakanaCombinationShift | src/lib/utils/romaji.ts:242-276 | every combination key is two katakana letters, and its value shifts each of them by 0x60 |
| Romaji.ToHiragana | src/lib/utils/romaji.ts:278-297 | the folding loop produces the fold: a two-character combination first, then the single-character table, otherwise the character unchanged |
| Romaji.NextFolded | src/lib/utils/romaji.ts:282-294 | one step of the loop consumes one or two characters and emits exactly the fold of what it consumed |
| Romaji.FoldKanaLength | src/lib/utils/romaji.ts:278-297 | folding maps each character to exactly one character |
| Romaji.FoldKanaKeepsNonKatakana | src/lib/utils/romaji.ts:278-297 | text without katakana letters folds to itself |
| Romaji.Tokenize | src/lib/utils/romaji.ts:305-354 | the tokens are the token split of the folded text |
| Romaji.SplitTokens | src/lib/utils/romaji.ts:307-353 | the token loop produces the token split: two-character table entries first, then single characters |
| Romaji.NextToken | src/lib/utils/romaji.ts:311-350 | one step of the loop consumes one or two characters and emits the token for them: a small tsu with no spellings, a table entry, or the character as its own spelling |
| Romaji.TokensSpellText | src/lib/utils/romaji.ts:305-354 | the kana of the tokens, concatenated, give back the folded text |
| Romaji.TokensWellFormed | src/lib/utils/romaji.ts:305-354 | every token has non-empty kana. Only っ is flagged, and it has no spellings. Every other token carries the table's spellings, or its own kana when the table has no entry |
| Romaji.MatchEscape | src/lib/utils/romaji.ts:378-386 | the first explicit small-tsu spelling that the input is a prefix of decides. An exact spelling matches and consumes the input. A proper prefix is partial |
| Romaji.MatchDoubled | src/lib/utils/romaji.ts:390-401 | it decides exactly when the input is a prefix of some doubled spelling. Its result is partial or a match of one character, and a match needs one keystroke |
| Romaji.MatchNasal | src/lib/utils/romaji.ts:419-448 | ん matches only "nn" when doubling is needed, and "n" or "nn" otherwise. Prefixes of "nn" are partial |
| Romaji.MatchSpellings | src/lib/utils/romaji.ts:451-463 | a match consumes a spelling that is a prefix of the input, and a partial result consumes nothing |
| Romaji.MatchRomaji | src/lib/utils/romaji.ts:362-464 | an index past the end is no match. Partial and matched exclude each other, and only a match consumes input, never more than was typed. On a well-formed token a match consumes at least one character |
| Romaji.MatchOnTokenized | src/lib/utils/romaji.ts:362-464 | on tokenizer output, every match consumes input and is never partial |
| Romaji.MatchDoubledFirstLetter | src/lib/utils/romaji.ts:390-401 | the first letter of any spelling of the next token matches the small tsu |
| Romaji.SmallTsuFollowed | src/lib/utils/romaji.ts:374-413 | っ before a token is matched by the first letter of any of that token's spellings. Other prefixes of that doubled spelling are partial |
| Romaji.EscapeOutcome | src/lib/utils/romaji.ts:378-386 | of the explicit spellings, exactly "xtu" or "xtsu" match, consuming their length, and exactly their proper prefixes are partial |
| Romaji.SmallTsuAtEnd | src/lib/utils/romaji.ts:375-387 | a final っ is matched exactly by "xtu" or "xtsu", and their proper prefixes are partial |
| Romaji.NasalBeforeVowel | src/lib/utils/romaji.ts:419-437 | before a vowel, y-kana or small kana, "n" is partial, "nn" matches, and nothing else matches |
| Romaji.NasalOtherwise | src/lib/utils/romaji.ts:438-447 | elsewhere, "n" and "nn" both match and consume what was typed |
| Romaji.MatchSpellingsFirstDeciding | src/lib/utils/romaji.ts:451-461 | the first spelling that is a prefix of the input, or that the input is a prefix of, settles the result |
| Romaji.MatchSpellingsNoneDeciding | src/lib/utils/romaji.ts:451-463 | with no such spelling, the result is no match |
| Romaji.OrdinaryToken | src/lib/utils/romaji.ts:450-463 | an ordinary token is decided by its first deciding spelling, or is no match |
| Romaji.KappaTokens | src/lib/utils/romaji.ts:325-350 | かっぱ tokenizes to か, a small tsu, and ぱ |
| Romaji.SmallTsuExample | src/lib/utils/romaji.ts:389-401 | in かっぱ, "p" completes the small tsu |
| Romaji.SmallTsuMismatchExample | src/lib/utils/romaji.ts:389-413 | in かっぱ, "k" is no match for the small tsu |
| Romaji.SmallTsuFollowedEscape | src/lib/utils/romaji.ts:389-412 | a っ before a token whose doubled spellings the input does not prefix falls back to the explicit spellings: exactly "xtu" or "xtsu" match and their proper prefixes are partial |
| Romaji.SmallTsuEscapeExample | src/lib/utils/romaji.ts:389-412 | in かっぱ, "xtu" typed for the small tsu is matched with 3 consumed |
| Romaji.NasalBeforeVowelExample | src/lib/utils/romaji.ts:419-437 | in あんい, "n" waits for a second n |
| Romaji.NasalBeforeConsonantExample | src/lib/utils/romaji.ts:438-447 | in あんた, "n" completes ん |
| Romaji.ExtendedInputExample | src/lib/utils/romaji.ts:458-460 | typing past the spelling of しゃ consumes only the spelling |
| Romaji.NeedsDoubleN | src/lib/utils/romaji.ts:467-474 | the hint fires exactly when the token is ん and the next token starts with one of あいうえおやゆよ |
| Romaji.NeedsDoubleNAgrees | src/lib/utils/romaji.ts:416-474 | when the hint asks for "nn", the matcher also demands it |
| Romaji.NeedsDoubleNNarrowerThanMatcher | src/lib/utils/romaji.ts:416-474 | before ゃ, the matcher insists on "nn" but the hint does not ask for it |
| Romaji.IsPunctuation | src/lib/utils/romaji.ts:477-479 | a punctuation-only string is non-empty, and it is one skipped character followed by nothing or by another punctuation-only string |
| Romaji.PunctuationConcat | src/lib/utils/romaji.ts:477-479 | two punctuation-only strings join to a punctuation-only string |
| Romaji.PunctuationExcludesKana | src/lib/utils/romaji.ts:477-479 | a string with a table kana or a letter is not punctuation |
| Adaptive.ToHiragana | src/lib/utils/adaptive.ts:44-53 | a katakana letter moves down by 0x60 to a hiragana letter, and every other character is kept |
| Adaptive.ToHiraganaString | src/lib/utils/adaptive.ts:58-60 | the conversion is character by character and keeps the length |
| Adaptive.ToHiraganaAgreesWithTable | src/lib/utils/adaptive.ts:44-53 | the engine's conversion agrees with the tokenizer's katakana table, and it is idempotent |
| Adaptive.IntrinsicDifficulty | src/lib/utils/adaptive.ts:80-114 | marks score 0 and nothing else does. Other characters score between 0.8 and 2.5, and exactly the hiragana vowels score 0.8 |
| Adaptive.KatakanaSurcharge | src/lib/utils/adaptive.ts:86-110 | a katakana letter costs its hiragana's difficulty plus at most 0.3, and strictly more for a known kana |
| Adaptive.NormalizedVariance | src/lib/utils/adaptive.ts:124-136 | the result lies in [0, 1], and it is 0.5 for fewer than two times or a zero mean |
| Adaptive.Variance | src/lib/utils/adaptive.ts:127-131 | the population variance is non-negative |
| Adaptive.NormalizedVarianceSaturates | src/lib/utils/adaptive.ts:132-135 | with a true square root, the inconsistency is 1 exactly when the variance is at least 500² |
| Adaptive.DaysSince | src/lib/utils/adaptive.ts:141-144 | a missing or zero timestamp counts as 30 days, and otherwise the result is the elapsed milliseconds over a day |
| Adaptive.RecencyFactor | src/lib/utils/adaptive.ts:175 | the factor is at least one half, and at most 1 for a past timestamp |
| Adaptive.RecencyFactorMonotone | src/lib/utils/adaptive.ts:174-175 | a more recent last-seen time never lowers the factor |
| Adaptive.MasteryScore | src/lib/utils/adaptive.ts:150-185 | the score is 0 below three attempts, and lies in [0, 1] when accuracy, hint rate, baseline and last-seen time are in range |
| Adaptive.MasteryLevel | src/lib/utils/adaptive.ts:190-198 | the level is new iff there are fewer than 3 attempts, learning iff the score is below 0.4, and mastered iff the score is at least 0.75 |
| Adaptive.MasteryLevelMonotone | src/lib/utils/adaptive.ts:190-198 | a higher score never gives a lower level |
| Adaptive.ScheduleNextReview | src/lib/utils/adaptive.ts:204-222 | the review is the table's interval after now, between one minute and three days |
| Adaptive.ReviewIntervalMonotone | src/lib/utils/adaptive.ts:214-219 | a better performance or a higher level never brings the review closer |
| Adaptive.CountKanjiTokens | src/lib/utils/adaptive.ts:238-240 | the count is at most the number of tokens, and it is 0 iff no token is kanji |
| Adaptive.CountedLength | src/lib/utils/adaptive.ts:248-251 | the counted characters are at most the reading's length, and all of them when there are no marks |
| Adaptive.GetCharacterCount | src/lib/utils/adaptive.ts:245-255 | the nested loop counts the characters of the readings that are not marks |
| Adaptive.KeptKana | src/lib/utils/adaptive.ts:266-271 | the kept characters are at most the reading's length |
| Adaptive.ExtractKanaCharacters | src/lib/utils/adaptive.ts:260-275 | the nested loop collects the converted readings without marks |
| Adaptive.KeptKanaMembers | src/lib/utils/adaptive.ts:266-271 | every kept character is from the reading and is not a mark |
| Adaptive.KanaCharactersScorable | src/lib/utils/adaptive.ts:260-275 | extracted characters are never marks or katakana, and their intrinsic difficulty is positive |
| Adaptive.KeptWithinCount | src/lib/utils/adaptive.ts:245-275 | a reading keeps no more characters than its character count |
| Adaptive.ExtractedWithinCount | src/lib/utils/adaptive.ts:245-275 | a sentence yields no more tracked characters than its character count |
| Adaptive.Weighted | src/lib/utils/adaptive.ts:320 | a user-adjusted difficulty is at least half the intrinsic one |
| Adaptive.TallyStep | src/lib/utils/adaptive.ts:305-323 | one step counts a non-mark, and counts it as unknown at most once |
| Adaptive.TallyStepCases | src/lib/utils/adaptive.ts:305-323 | a mark changes nothing. Any other character adds its weighted difficulty and one to the count, and one to the unknowns when it has no entry or is new |
| Adaptive.Tally | src/lib/utils/adaptive.ts:301-323 | unknowns ≤ counted ≤ characters |
| Adaptive.UnknownPenalty | src/lib/utils/adaptive.ts:333-334 | the penalty is positive iff more than half are unknown, and it lies in [0, 1] |
| Adaptive.LengthFactor | src/lib/utils/adaptive.ts:337 | the factor is at least 1, and exactly 1 iff there are at most four tokens |
| Adaptive.CalculateSentenceDifficulty | src/lib/utils/adaptive.ts:280-345 | the result equals the specification `SentenceDifficulty`. That is the static difficulty plus 0.8 per kanji token, blended 0.4 to 0.6 with the average weighted character difficulty, plus the unknown penalty, and scaled by the length factor. Its properties are `NoKanaDifficulty` and `KanjiFlagRaisesDifficulty` |
| Adaptive.TallyCharacters | src/lib/utils/adaptive.ts:300-323 | the loop's sum, count and unknown count equal the tally. Each step is characterised by `TallyStepCases` |
| Adaptive.NoKanaDifficulty | src/lib/utils/adaptive.ts:285-298 | without kana, the difficulty is the static difficulty plus 0.8 per kanji token |
| Adaptive.FlagAddsOneKanji | src/lib/utils/adaptive.ts:238-240 | flagging one more token as kanji adds exactly one to the count |
| Adaptive.KanaIgnoresKanjiFlag | src/lib/utils/adaptive.ts:260-275 | the kanji flag does not change the extracted characters |
| Adaptive.BlendedRaisedBase | src/lib/utils/adaptive.ts:340-342 | raising the base raises the blend |
| Adaptive.KanjiFlagRaisesDifficulty | src/lib/utils/adaptive.ts:280-345 | flagging a token as kanji strictly raises the sentence difficulty |
| Adaptive.MaxAllowedDifficulty | src/lib/utils/adaptive.ts:354-363 | the cap lies in [1.2, 3.5]. It is 1.2 iff the current difficulty is below 1.2, and 3.5 iff it is at least 3 |
| Adaptive.MaxAllowedMonotone | src/lib/utils/adaptive.ts:354-363 | a higher difficulty never lowers the cap |
| Adaptive.ReviewedCount | src/lib/utils/adaptive.ts:372-381 | the count is at most the number of tracked characters |
| Adaptive.IsReadyForKanji | src/lib/utils/adaptive.ts:368-385 | ready iff at least 30 characters are reviewing or mastered |
| Adaptive.FilterSentencesByLevel | src/lib/utils/adaptive.ts:390-411 | a sentence is kept iff it is within the cap and either has no kanji or the learner is kanji-ready |
| Adaptive.UniqueChars | src/lib/utils/adaptive.ts:431 | the same set of characters, each once |
| Adaptive.DueCount | src/lib/utils/adaptive.ts:433-439 | at most one per character |
| Adaptive.NewCount | src/lib/utils/adaptive.ts:440-442 | at most one per character |
| Adaptive.NewCharBonus | src/lib/utils/adaptive.ts:447-453 | the bonus is 0.2 iff there are 1 to 3 new characters, negative iff there are more than 5, and never above 0.2 |
| Adaptive.DifficultyMatch | src/lib/utils/adaptive.ts:423-424 | the match is at most 1, and exactly 1 iff the difficulty equals the target |
| Adaptive.DifficultyMatchPrefersCloser | src/lib/utils/adaptive.ts:423-424 | a closer difficulty never matches worse |
| Adaptive.CalculateFitScore | src/lib/utils/adaptive.ts:416-456 | the result equals the specification `FitScore`: half the difficulty match, plus 0.3 of the capped review bonus, plus 0.2 of the new-character bonus. Its properties are in `FitScoreProperties` |
| Adaptive.CountDueAndNew | src/lib/utils/adaptive.ts:433-443 | the loop counts the due characters and the new characters |
| Adaptive.FitScoreProperties | src/lib/utils/adaptive.ts:416-456 | the fit is at most 0.63, and a closer difficulty never fits worse |
| Adaptive.ScoreOf | src/lib/utils/adaptive.ts:510-526 | a scored entry keeps its sentence |
| Adaptive.ScorePool | src/lib/utils/adaptive.ts:510-526 | every pool sentence is scored, in order |
| Adaptive.WeightBand | src/lib/utils/adaptive.ts:547-555 | the band is the first cumulative weight that is above the roll |
| Adaptive.WeightedIndex | src/lib/utils/adaptive.ts:546-556 | the index is the roll's band when that band is among the top candidates, otherwise 0 |
| Adaptive.WeightBandMonotone | src/lib/utils/adaptive.ts:548-555 | a larger roll never gives an earlier band |
| Adaptive.Harder | src/lib/utils/adaptive.ts:564 | keeps exactly the entries above the threshold |
| Adaptive.Easier | src/lib/utils/adaptive.ts:574 | keeps exactly the entries below the threshold |
| Adaptive.PickTopThree | src/lib/utils/adaptive.ts:566 | the pick is one of the first three |
| Adaptive.ChooseCandidate | src/lib/utils/adaptive.ts:538-617 | beginners get the weighted index. Intermediate and advanced learners get a probe, comfort or target pick, chosen by the roll and the thresholds |
| Adaptive.PickedFromWider | src/lib/utils/adaptive.ts:562-616 | a pick from a sub-list is a pick from the ranked list |
| Adaptive.Recent | src/lib/utils/adaptive.ts:480 | the first n recent ids |
| Adaptive.RecentNested | src/lib/utils/adaptive.ts:480-491 | the last 3 ids are among the last 15, and the most recent id is among the last 3 |
| Adaptive.Pool | src/lib/utils/adaptive.ts:475-493 | a sentence is pooled iff it passes the level filter and its id is not excluded. The excluded ids are the last 15 when at least three sentences remain outside them, otherwise the last 3 |
| Adaptive.FirstOtherThan | src/lib/utils/adaptive.ts:622 | finds an entry with another id, or none exists |
| Adaptive.Ranked | src/lib/utils/adaptive.ts:509-529 | the ranking is a permutation of the pool's scored sentences, one entry per pool sentence |
| Adaptive.RankedBestFirst | src/lib/utils/adaptive.ts:528-529 | the ranking is in descending fit order |
| Adaptive.SelectNextSentence | src/lib/utils/adaptive.ts:461-634 | the result is None iff there are no sentences. Otherwise it picks a pool sentence when the pool is non-empty and never repeats the last id. The empty-pool fallbacks are stated separately, and beginners get one of the top five |
| Adaptive.CrushingExcludesStruggling | src/lib/utils/adaptive.ts:655-662 | the two verdicts exclude each other |
| Adaptive.AdjustDifficulty | src/lib/utils/adaptive.ts:644-701 | it states the three branches with their streak counters and multipliers. The difficulty is clamped to [0.8, 5], and the counters stay below their thresholds |
| Adaptive.UpdateSpeedBaseline | src/lib/utils/adaptive.ts:706-715 | the baseline stays within [200, 3000] |
| Adaptive.SpeedBaselineMovesToward | src/lib/utils/adaptive.ts:710-714 | the new baseline lies between the old one and the new average, and a steady average is a fixed point |
| Adaptive.SkillTotals | src/lib/utils/adaptive.ts:725-734 | at most one qualifying character per entry |
| Adaptive.CalculateOverallSkill | src/lib/utils/adaptive.ts:720-737 | the result equals the specification `OverallSkill`: the mean score over characters with at least three answers, or 0 when there are none. Its bounds are in `OverallSkillWithin` |
| Adaptive.OverallSkillWithoutQualified | src/lib/utils/adaptive.ts:723-736 | with no character at three or more attempts, the skill is 0 |
| Adaptive.SkillTotalsWithin | src/lib/utils/adaptive.ts:725-734 | the total score is at most the number of qualifying characters |
| Adaptive.OverallSkillWithin | src/lib/utils/adaptive.ts:720-737 | with scores in [0, 1], the skill lies in [0, 1] |
| Db.ToMasteryData | src/lib/db.ts:414-432 | the view copies the counters, score, level and times, and its accuracy lies in [0, 1] |
| Db.MasteryDataRates | src/lib/db.ts:415-426 | accuracy, average time and hint rate are the guarded ratios |
| Db.MasteryOf | src/lib/db.ts:407-436 | one view per row, in order |
| Db.Lookup | src/lib/db.ts:374-405 | a hit has the requested character, and a miss means no entry has it |
| Db.IndexOf | src/lib/db.ts:454-457 | a hit is a row with the character, and a miss means no row has it |
| Db.RecentWindow | src/lib/db.ts:459-468 | keeps the last ten times, ending with the new time |
| Db.BestTime | src/lib/db.ts:470-473 | the best time is the smaller of the stored best and the new time |
| Db.Upsert | src/lib/db.ts:475-523 | a new character gets a row appended with the new id, one answer on the right counter, the hint flags, one attempt, its time and a legacy mastery of 0. An existing row gains one on the right counter and on each flagged hint counter, one attempt and the added time. No other row changes |
| Db.UpsertWritesAttempt | src/lib/db.ts:459-523 | on both paths the row gets the time seen, the recent window and best time grown by this attempt, and the engine's score, level and next review |
| Db.NextRowIdAfter | src/lib/db.ts:475-494 | a row id is used up exactly when a row is inserted |
| Db.UpsertKeepsUnique | src/lib/db.ts:475-494 | characters stay unique |
| Db.UpdatedMasteryIsNewAccuracy | src/lib/db.ts:494 | the updated `mastery` column is the new accuracy |
| Db.InsertedRecordConsistent | src/lib/db.ts:476-480 | an inserted row satisfies the row invariant |
| Db.UpdatedRecordConsistent | src/lib/db.ts:481-494 | an updated row keeps the row invariant |
| Db.UpsertKeepsConsistent | src/lib/db.ts:475-523 | the upsert keeps the row invariant on every row |
| Db.DefaultProfile | src/lib/db.ts:268-275 | the default row has id 1, difficulty 1, a 1000 ms baseline and both timestamps set to now |
| Db.ApplyProfileUpdate | src/lib/db.ts:286-328 | each defined field is written and each undefined field is kept. `updated_at` is always set |
| Db.ProfileUpdateLaws | src/lib/db.ts:286-328 | an empty update only touches `updated_at`, and applying an update twice is the same as once |
| Db.DueRecords | src/lib/db.ts:579-584 | keeps exactly the rows whose review is set and due |
| Db.DueInOrderCorrect | src/lib/db.ts:579-584 | the due rows, sorted by review time |
| Db.DueViewAllDue | src/lib/db.ts:573-606 | every returned view is due |
| Db.DueViewOrdered | src/lib/db.ts:573-606 | the views are in ascending review order |
| Db.DueViewComplete | src/lib/db.ts:573-606 | every due row appears |
| Db.DueViewCorrect | src/lib/db.ts:573-606 | all three facts together |
| Db.NewestFirst | src/lib/db.ts:218-220 | sorting by date, newest first, keeps the dates and orders them strictly |
| Db.RunEndsAt | src/lib/db.ts:233-247 | a counted run is a block of consecutive days whose predecessor is absent |
| Db.LatestIsRecent | src/lib/db.ts:224-235 | the latest date is today or yesterday iff no date is in the future and today or yesterday is present |
| Db.Database.AllCharacterMastery | src/lib/db.ts:407-436 | the map is the view of the table, keyed by distinct characters |
| Db.Database.UpdateCharacterMastery | src/lib/db.ts:438-524 | the table becomes the upsert, and the profile and activity are unchanged |
| Db.Database.GetUserProfile | src/lib/db.ts:268-284 | returns the stored row, or creates and returns the default row |
| Db.Database.UpdateUserProfile | src/lib/db.ts:286-328 | the stored row becomes the applied update |
| Db.Database.CharactersDueForReview | src/lib/db.ts:573-606 | all due rows, ordered by review time, as views |
| Db.Database.RecordSentenceCompleted | src/lib/db.ts:182-212 | first of the day iff today had no activity. The first sentence appends the row (today, 1, now). Otherwise today's row counts one more sentence and every other row is unchanged |
| Db.Database.GetDayStreak | src/lib/db.ts:214-250 | the streak is positive iff today or yesterday was practised and no date is in the future. A positive streak counts the consecutive days ending at the latest of those two |
| Session.StartingStats | src/lib/stores/session.svelte.ts:257-272 | the stored statistics, or a fresh record for the character: no answers, zero rates and score, level new, no timestamps, no recent times, and the attempt's own time as the average |
| Session.UpdatedStats | src/lib/stores/session.svelte.ts:274-291 | the attempt is added to the counters. Accuracy lies in [0, 1] (its ratio is `Session.UpdatedStatsAccuracy`). Recent times are the last ten. The average moves between the old average and the new time |
| Session.PerformanceOf | src/lib/stores/session.svelte.ts:300-304 | good iff correct without a hint, ok iff correct with a hint, bad iff wrong |
| Session.AttemptUpdate | src/lib/stores/session.svelte.ts:257-317 | from the character's entry in the mastery read before the loop, or fresh stats: it passes the attempt through with hintShown set. The score is `Adaptive.MasteryScore` of the stats with the attempt added. The level is `Adaptive.MasteryLevel` of that score and the new answer total, so it is new iff there are fewer than three answers. The review is scheduled by level and performance |
| Session.ApplyAttemptsCounts | src/lib/stores/session.svelte.ts:256-318 | writing the timings adds one answer per timing and one correct per correct timing, and keeps characters unique |
| Session.TotalsOfUpsert | src/lib/db.ts:475-494 | one upsert adds exactly one answer |
| Session.WriteAttempts | src/lib/stores/session.svelte.ts:255-318 | the loop writes the timings' updates in order, and the profile and activity are unchanged |
| Session.WriteAttempt | src/lib/stores/session.svelte.ts:309-317 | one iteration upserts the attempt's update, so the table equals the first i+1 upserts; profile and activity are unchanged |
| Session.UpdatedStatsAccuracy | src/lib/stores/session.svelte.ts:275-278 | the new accuracy times the number of answers is the number of correct answers |
| Session.UpsertAllTotals | src/lib/stores/session.svelte.ts:256-318 | after n upserts whose answers match the timings, the table holds n more answers and as many more correct ones as correct timings |
| Session.UpsertAllUnique | src/lib/stores/session.svelte.ts:256-318 | any number of upserts keeps one row per character |
| Session.RecordSentenceInProfile | src/lib/stores/session.svelte.ts:341-360 | the totals grow by the sentence. The baseline moves. The skill is recomputed from the updated table, and the difficulty stays in [0.8, 5] |
| Session.Fresh | src/lib/stores/session.svelte.ts:48-69 | counters are zero and there is no sentence or token state |
| Session.AfterAttempt | src/lib/stores/session.svelte.ts:163-215 | it counts the attempt and updates the streaks, keeping the invariant. It appends the timing and clears the token |
| Session.SessionStore.constructor | src/lib/stores/session.svelte.ts:48-69 | starts inactive with no session |
| Session.SessionStore.StartSession | src/lib/stores/session.svelte.ts:75-95 | resets the store for the new session |
| Session.SessionStore.SetSentenceStart | src/lib/stores/session.svelte.ts:100-123 | in a session, resets the sentence state and sets the new sentence and history ids. Outside a session, changes nothing |
| Session.SessionStore.PrepareTokenStart | src/lib/stores/session.svelte.ts:128-130 | clears the token clock |
| Session.SessionStore.SetTokenStart | src/lib/stores/session.svelte.ts:135-139 | sets the token clock only when it is unset |
| Session.SessionStore.MarkHintUsed | src/lib/stores/session.svelte.ts:144-149 | flags the hint, and counts it once per token |
| Session.SessionStore.RecordAttemptWithTiming | src/lib/stores/session.svelte.ts:154-217 | outside a session returns 0 and changes nothing. Inside one, the time is since the token clock, or 0, and the state is the attempt applied |
| Session.SessionStore.CompleteSentence | src/lib/stores/session.svelte.ts:232-369 | null iff not in a session or there is no sentence. Otherwise it states the result's ratios and the table after the attempts are written. The profile gets its totals, baseline and skill, and the sentence state is cleared |
| Session.SessionStore.EndSession | src/lib/stores/session.svelte.ts:371-383 | in a session, deactivates it and clears the id |
| Sentences.CorpusDifficultyInScale | src/lib/data/sentences.ts:16-266 | every corpus difficulty is on the 1 to 5 scale |
| Sentences.TargetDifficulty | src/lib/data/sentences.ts:274 | mastery 0 to 1 maps onto 1 to 5, with both ends exact |
| Sentences.WithoutRecent | src/lib/data/sentences.ts:277 | keeps exactly the non-recent sentences |
| Sentences.SelectFrom | src/lib/data/sentences.ts:269-290 | if every sentence is recent, the first one. Otherwise a non-recent sentence with fewer than three non-recent sentences strictly closer to the target |
| Sentences.SelectSentence | src/lib/data/sentences.ts:269-290 | the same, over the built-in corpus |
| Sorting.SortBySorted | src/lib/data/sentences.ts:281-285 | sorting orders by the key |
| Sorting.SortBy | src/lib/data/sentences.ts:281-285 | sorting is a permutation |
| Sorting.SortByStable | src/lib/utils/adaptive.ts:529 | the sort is stable: elements with equal keys keep their input order, as `Array.prototype.sort` does |
| Numbers.Clamp | src/lib/utils/adaptive.ts:694 | the clamp lies within the bounds and is the identity inside them |
| Numbers.Ratio | src/lib/stores/session.svelte.ts:242-249 | the guarded ratio: the quotient for a positive denominator, otherwise 0, and in [0, 1] for a part of a whole |
| Numbers.PickIndex | src/lib/data/sentences.ts:289 | `Math.floor(roll * n)` is a valid index |
| GenerateSentences.Utf16Length | axogen/scripts/generate-sentences.ts:71 | a string's JavaScript length lies between its character count and twice that, and equals the count iff every character is in the Basic Multilingual Plane |
| GenerateSentences.Utf16LengthAppend | axogen/scripts/generate-sentences.ts:71 | lengths add up over concatenation |
| GenerateSentences.EmojiCountsTwice | axogen/scripts/generate-sentences.ts:69-74 | a thirty-character sentence ending in an emoji is thirty-one units long and is rejected |
| GenerateSentences.ContainsKanji | axogen/scripts/generate-sentences.ts:48-50 | true iff some character is in U+4E00 to U+9FAF |
| GenerateSentences.ContainsJapanese | axogen/scripts/generate-sentences.ts:76 | true iff some character is in U+3040 to U+9FAF |
| GenerateSentences.ContainsAsciiAlphanumeric | axogen/scripts/generate-sentences.ts:81 | true iff some character is an ASCII letter or digit |
| GenerateSentences.PunctuationCount | axogen/scripts/generate-sentences.ts:86 | the count is at most the length, and 0 iff there is no counted mark |
| GenerateSentences.PunctuationCountAppend | axogen/scripts/generate-sentences.ts:86 | counts add up over concatenation |
| GenerateSentences.IsGoodSentence | axogen/scripts/generate-sentences.ts:69-92 | kept iff the sentence is 3 to 30 UTF-16 units long, has a Japanese character, no ASCII letter or digit, and at most four marks |
| GenerateSentences.GoodSentenceDropLast | axogen/scripts/generate-sentences.ts:69-92 | dropping the last character of a kept sentence keeps it when the rest is still at least 3 units long and Japanese |
| GenerateSentences.KanjiIsJapanese | axogen/scripts/generate-sentences.ts:48-78 | a sentence with kanji passes the Japanese test |
| GenerateSentences.EstimateDifficulty | axogen/scripts/generate-sentences.ts:53-66 | the estimate lies in [1, 5]. It is 1 for a sentence of at most 15 units without kanji, and 5 from 14 kanji tokens on |
| GenerateSentences.EstimateDifficultyMonotone | axogen/scripts/generate-sentences.ts:53-66 | a longer sentence, in UTF-16 units, and more kanji tokens never lower the estimate |
| GenerateSentences.EstimateDifficultyKanjiStep | axogen/scripts/generate-sentences.ts:61-65 | below the cap, each kanji token adds exactly 0.3 |

## Left out

These members carry a contract weaker than the source's behaviour:

- Sentences.SelectFrom: the contract bounds the rank of the pick among the closest sentences. It does not state which of the top three a given roll picks.
- Adaptive.ChooseCandidate: for the probe, comfort and target branches, the contract states which list the sentence comes from. It does not state the index that the second draw picks.
- Adaptive.MasteryScore: the contract states the zero case and the [0, 1] bound, not the weighted formula.
- Session.SessionStore.CompleteSentence: the contract states the range of the new difficulty, not its value. The streak counters written to the profile are `Adaptive.AdjustDifficulty`'s.
- Session.RecordSentenceInProfile: as for CompleteSentence, it states the range of the new difficulty, not its value.

These parts of the system are not modelled:

- The SQL engine, `getDb` and async execution are not modelled. Queries are direct operations on the in-memory tables.
- JSON encoding of `recent_times` is not modelled. The model stores the decoded list, so the `|| "[]"` default is the empty list.
- Calendar dates are integer day numbers, so `getTodayDate` and `getDateString` are parameters. The source's mix of UTC date strings and local `setDate` arithmetic is not reproduced.
- `Math.random`, `Date.now` and `Math.sqrt` are parameters. One `now` stands for every clock read within an operation.
- IEEE-754 rounding is not modelled. Numbers are exact reals.
- `console.log` output is not modelled.
- Svelte reactivity (`$state`) is not modelled.
- A Dafny `char` is a whole Unicode character, while JavaScript strings index UTF-16 code units. The generator's length checks count UTF-16 units, as the source does. The loops of `toHiragana` and `tokenize` and the matcher's `consumed` counts work in `char`s. For text with a character outside the Basic Multilingual Plane, the source's loops step through the two halves of its surrogate pair, making two tokens of one half each. The model makes one token of the whole character. `extractKanaCharacters` and `toHiraganaString` iterate by code point, as the model does.
- The sessions and attempt_log tables are not modelled: `logAttempt`, `updateSession` and `endSession` in db.ts only write to them, and `getLastSession` reads the last session back. The session id `dbStartSession` returns is a parameter of `StartSession`.
- The sentence_history table is not modelled: `recordSentenceShown` and `updateSentenceCompletion` write it, and `getRecentSentenceIds` reads the ids shown most recently, newest first. That list is the `recentIds` parameter of `Adaptive.SelectNextSentence` and `Sentences.SelectSentence`, so the model does not link a `recordSentenceShown` call to the `recentIds` of later selections. The history row id is a parameter of `SetSentenceStart`.
- The `difficulty` argument of `setSentenceStart` only feeds the history table, so it is left out.
- The legacy `getProgress`, `updateProgress`, `getAllProgress` and `recordAttempt` are left out. The practice flow does not use them.
- `getLastSession` and `loadLastSession` read the sessions table, and `hasPracticedToday` is a one-line existence query on daily_activity; they are left out.
- `getSessionState` is not modelled. The store's `state` field is read directly.
- `scored.sort` in `selectNextSentence` sorts an array in place. The model sorts a sequence value with a stable insertion sort.
- The repeat guard at the end of `selectNextSentence` is not modelled. Every candidate comes from a pool that excludes the last three ids, so the guard can never fire. The model asserts this at that point.
- An empty sentence list makes `selectNextSentence` return `sentences[0]`, which is undefined in JavaScript. The model returns `None`.
- The generator's download, decompression, TSV reading, kuroshiro tokenization, shuffling and file output are I/O, so they are left out. Only its three filters are modelled.
