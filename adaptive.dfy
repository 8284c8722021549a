/**
 * The adaptive learning engine: per-character difficulty and mastery
 * scores, mastery levels and review scheduling, the sentence difficulty
 * estimate, the sentence selector, and the profile's difficulty, speed
 * baseline and overall skill.
 *
 * The clock and `Math.random` are parameters (`now`, `roll`, `pick`), and
 * so is the square root (`root`) of the consistency term.
 */
module Adaptive {
  import opened Options
  import opened Numbers
  import Sorting
  import Romaji
  import opened Sentences
  import opened Db

  // ------------------------------------------------------------------
  // Katakana to hiragana
  // ------------------------------------------------------------------

  /** One character to hiragana: katakana letters move down by 0x60, everything else is kept. */
  function ToHiragana(c: char): (h: char)
    ensures Romaji.IsKatakanaLetter(c) ==> h as int == c as int - 0x60 && Romaji.IsHiraganaLetter(h)
    ensures !Romaji.IsKatakanaLetter(c) ==> h == c
  {
    if Romaji.IsKatakanaLetter(c) then (c as int - 0x60) as char else c
  }

  /** A string to hiragana, character by character. */
  function ToHiraganaString(s: string): (r: string)
    ensures |r| == |s|
    ensures forall i :: 0 <= i < |s| ==> r[i] == ToHiragana(s[i])
  {
    seq(|s|, i requires 0 <= i < |s| => ToHiragana(s[i]))
  }

  /**
   * The engine's conversion agrees with the tokenizer's katakana table on
   * every character the table lists, and converting twice changes nothing.
   */
  lemma ToHiraganaAgreesWithTable(c: char)
    ensures Romaji.KatakanaToHiragana(c).Some? ==> ToHiragana(c) == Romaji.KatakanaToHiragana(c).value
    ensures ToHiragana(ToHiragana(c)) == ToHiragana(c)
  {
    Romaji.KatakanaToHiraganaShift(c);
  }

  // ------------------------------------------------------------------
  // Character intrinsic difficulty
  // ------------------------------------------------------------------

  /** The marks that carry no difficulty and are not tracked: the listed punctuation and the prolonged sound mark. */
  predicate IsDifficultyMark(c: char)
  {
    match c
    case '。' | '、' | '？' | '！' | '「' | '」' | '『' | '』' | '（' | '）' | '・' | 'ー' => true
    case _ => false
  }

  /** The five vowels. */
  predicate IsHiraganaVowel(c: char)
  {
    match c
    case 'あ' | 'い' | 'う' | 'え' | 'お' => true
    case _ => false
  }

  /** The basic kana: vowels, the plain consonant rows and ん. */
  predicate IsHiraganaBasic(c: char)
  {
    match c
    case 'あ' | 'い' | 'う' | 'え' | 'お' | 'か' | 'き' | 'く' | 'け' | 'こ' | 'さ' | 'し' |
      'す' | 'せ' | 'そ' | 'た' | 'ち' | 'つ' | 'て' | 'と' | 'な' | 'に' | 'ぬ' | 'ね' |
      'の' | 'は' | 'ひ' | 'ふ' | 'へ' | 'ほ' | 'ま' | 'み' | 'む' | 'め' | 'も' | 'や' |
      'ゆ' | 'よ' | 'ら' | 'り' | 'る' | 'れ' | 'ろ' | 'わ' | 'を' | 'ん' => true
    case _ => false
  }

  /** The kana with dakuten or handakuten. */
  predicate IsHiraganaVoiced(c: char)
  {
    match c
    case 'が' | 'ぎ' | 'ぐ' | 'げ' | 'ご' | 'ざ' | 'じ' | 'ず' | 'ぜ' | 'ぞ' | 'だ' | 'ぢ' |
      'づ' | 'で' | 'ど' | 'ば' | 'び' | 'ぶ' | 'べ' | 'ぼ' | 'ぱ' | 'ぴ' | 'ぷ' | 'ぺ' |
      'ぽ' => true
    case _ => false
  }

  /** The small kana. */
  predicate IsHiraganaSmall(c: char)
  {
    match c
    case 'ぁ' | 'ぃ' | 'ぅ' | 'ぇ' | 'ぉ' | 'っ' | 'ゃ' | 'ゅ' | 'ょ' => true
    case _ => false
  }

  /**
   * The difficulty of a character before mastery: 0 for the listed marks;
   * vowels 0.8, other basic kana 1.0, voiced 1.1 and small kana 1.3, each
   * raised (to 1.1, 1.2, 1.3 and 1.5) when written in katakana; 2.5 for
   * anything else.
   */
  function IntrinsicDifficulty(c: char): (d: real)
    ensures d == 0.0 <==> IsDifficultyMark(c)
    ensures !IsDifficultyMark(c) ==> 0.8 <= d <= 2.5
    ensures d == 0.8 <==> IsHiraganaVowel(c)
  {
    if IsDifficultyMark(c) then 0.0
    else
      var normalized := ToHiragana(c);
      var wasKatakana := normalized != c && c != 'ー';
      if IsHiraganaVowel(normalized) then (if wasKatakana then 1.1 else 0.8)
      else if IsHiraganaBasic(normalized) then (if wasKatakana then 1.2 else 1.0)
      else if IsHiraganaVoiced(normalized) then (if wasKatakana then 1.3 else 1.1)
      else if IsHiraganaSmall(normalized) then (if wasKatakana then 1.5 else 1.3)
      else 2.5
  }

  /**
   * A katakana letter costs its hiragana's difficulty plus at most 0.3, and
   * strictly more whenever the hiragana is a known kana.
   */
  lemma KatakanaSurcharge(c: char)
    requires Romaji.IsKatakanaLetter(c)
    ensures var base := IntrinsicDifficulty(ToHiragana(c));
      && base <= IntrinsicDifficulty(c) <= base + 0.3
      && (base < 2.5 ==> base < IntrinsicDifficulty(c))
  {
    var h := ToHiragana(c);
    assert !IsDifficultyMark(c);
    assert !IsDifficultyMark(h);
    assert ToHiragana(h) == h;
  }

  // ------------------------------------------------------------------
  // Mastery score
  // ------------------------------------------------------------------

  /** A square root candidate is non-negative on the non-negative reals. */
  ghost predicate NonNegativeRoot(root: real -> real)
  {
    forall x :: 0.0 <= x ==> 0.0 <= root(x)
  }

  /** A true square root on the non-negative reals. */
  ghost predicate IsSquareRoot(root: real -> real)
  {
    forall x :: 0.0 <= x ==> 0.0 <= root(x) && root(x) * root(x) == x
  }

  function Sum(times: seq<int>): real
  {
    if times == [] then 0.0 else Sum(times[..|times| - 1]) + times[|times| - 1] as real
  }

  function SquaredDeviations(times: seq<int>, mean: real): (r: real)
    ensures r >= 0.0
  {
    if times == [] then 0.0
    else
      var d := times[|times| - 1] as real - mean;
      SquaredDeviations(times[..|times| - 1], mean) + d * d
  }

  /** The population variance of the times. */
  function Variance(times: seq<int>): (v: real)
    requires |times| > 0
    ensures v >= 0.0
  {
    var mean := Sum(times) / |times| as real;
    SquaredDeviations(times, mean) / |times| as real
  }

  /**
   * The inconsistency of the recent times, between 0 and 1: 0.5 when there
   * are fewer than two times or their mean is 0, otherwise the standard
   * deviation over 500 ms, capped at 1.
   */
  function NormalizedVariance(times: seq<int>, root: real -> real): (v: real)
    requires NonNegativeRoot(root)
    ensures 0.0 <= v <= 1.0
    ensures |times| < 2 || Sum(times) == 0.0 ==> v == 0.5
  {
    if |times| < 2 then 0.5
    else
      var mean := Sum(times) / |times| as real;
      if mean == 0.0 then 0.5
      else
        var stdDev := root(Variance(times));
        Min(1.0, stdDev / 500.0)
  }

  /** With a true square root, the inconsistency saturates exactly at a variance of 500 squared. */
  lemma NormalizedVarianceSaturates(times: seq<int>, root: real -> real)
    requires IsSquareRoot(root)
    requires |times| >= 2 && Sum(times) != 0.0
    ensures NormalizedVariance(times, root) == 1.0 <==> Variance(times) >= 250000.0
  {
    var v := Variance(times);
    var r := root(v);
    assert 0.0 <= r && r * r == v;
    assert Sum(times) / |times| as real != 0.0;
    if r >= 500.0 {
      assert r * r >= 500.0 * r >= 250000.0;
    } else {
      assert r * r <= 500.0 * r < 250000.0;
    }
  }

  /** Days since a timestamp; a missing or zero timestamp counts as 30 days. */
  function DaysSince(timestamp: Option<int>, now: int): (d: real)
    ensures timestamp.None? || timestamp.value == 0 ==> d == 30.0
    ensures timestamp.Some? && timestamp.value != 0 ==> d * 86400000.0 == (now - timestamp.value) as real
  {
    if timestamp.None? || timestamp.value == 0 then 30.0
    else (now - timestamp.value) as real / (1000.0 * 60.0 * 60.0 * 24.0)
  }

  /** The recency factor: 3% less per day since last seen, never below one half. */
  function RecencyFactor(lastSeen: Option<int>, now: int): (f: real)
    ensures 0.5 <= f
    ensures (lastSeen.Some? ==> lastSeen.value <= now) ==> f <= 1.0
  {
    Max(0.5, 1.0 - DaysSince(lastSeen, now) * 0.03)
  }

  /** A character seen more recently never has a smaller recency factor. */
  lemma RecencyFactorMonotone(earlier: int, later: int, now: int)
    requires 0 < earlier <= later
    ensures RecencyFactor(Some(earlier), now) <= RecencyFactor(Some(later), now)
  {
    var a := DaysSince(Some(earlier), now);
    var b := DaysSince(Some(later), now);
    assert a * 86400000.0 == (now - earlier) as real;
    assert b * 86400000.0 == (now - later) as real;
    assert b <= a;
  }

  /**
   * The composite mastery score: 0 below three attempts; otherwise a
   * weighted sum of accuracy (0.3), speed (0.25), consistency (0.2) and
   * hint independence (0.25), scaled by the recency factor. It lies in
   * [0, 1] whenever accuracy and hint rate do, the baseline is not negative
   * and the character was last seen no later than now.
   */
  function MasteryScore(stats: CharacterMasteryData, speedBaselineMs: real, now: int, root: real -> real): (s: real)
    requires NonNegativeRoot(root)
    ensures stats.correct + stats.incorrect < 3 ==> s == 0.0
    ensures
      && 0.0 <= stats.accuracy <= 1.0
      && 0.0 <= stats.hintRate <= 1.0
      && 0.0 <= speedBaselineMs
      && (stats.lastSeen.Some? ==> stats.lastSeen.value <= now)
      ==> 0.0 <= s <= 1.0
  {
    if stats.correct + stats.incorrect < 3 then 0.0
    else
      var avgTime := if stats.avgTimeMs != 0.0 then stats.avgTimeMs else speedBaselineMs;
      var speedScore := Min(1.0, speedBaselineMs / Max(100.0, avgTime));
      var consistency := 1.0 - NormalizedVariance(stats.recentTimes, root);
      var hintFreedom := 1.0 - stats.hintRate;
      var recency := RecencyFactor(stats.lastSeen, now);
      var raw := stats.accuracy * 0.3 + speedScore * 0.25 + consistency * 0.2 + hintFreedom * 0.25;
      ScaledWithin(raw, recency, speedScore, speedBaselineMs, Max(100.0, avgTime));
      raw * recency
  }

  /** The arithmetic behind the score's bounds. */
  lemma ScaledWithin(raw: real, recency: real, speedScore: real, baseline: real, divisor: real)
    requires divisor >= 100.0 && speedScore == Min(1.0, baseline / divisor)
    ensures 0.0 <= baseline ==> 0.0 <= speedScore <= 1.0
    ensures 0.0 <= raw <= 1.0 && 0.5 <= recency <= 1.0 ==> 0.0 <= raw * recency <= 1.0
  {
    if 0.0 <= raw <= 1.0 && 0.5 <= recency <= 1.0 {
      assert raw * recency <= raw * 1.0;
    }
  }

  /** The mastery level for a score after a number of attempts. */
  function MasteryLevel(score: real, attemptCount: int): (l: Level)
    ensures l == New <==> attemptCount < 3
    ensures l == Mastered <==> attemptCount >= 3 && score >= 0.75
    ensures l == Learning <==> attemptCount >= 3 && score < 0.4
  {
    if attemptCount < 3 then New
    else if score < 0.4 then Learning
    else if score < 0.75 then Reviewing
    else Mastered
  }

  /** The levels in order. */
  function Rank(l: Level): nat
  {
    match l
    case New => 0
    case Learning => 1
    case Reviewing => 2
    case Mastered => 3
  }

  /** Past three attempts a higher score never gives a lower level. */
  lemma MasteryLevelMonotone(s1: real, s2: real, attemptCount: int)
    requires attemptCount >= 3 && s1 <= s2
    ensures Rank(MasteryLevel(s1, attemptCount)) <= Rank(MasteryLevel(s2, attemptCount))
  {
  }

  // ------------------------------------------------------------------
  // Review scheduling
  // ------------------------------------------------------------------

  /** How a character went in the sentence just finished. */
  datatype Performance = Good | Ok | Bad

  const Minute: nat := 60 * 1000
  const Hour: nat := 60 * Minute
  const Day: nat := 24 * Hour

  /** The review interval table, by level and performance. */
  function ReviewInterval(level: Level, performance: Performance): nat
  {
    match (level, performance)
    case (New, Good) => 5 * Minute
    case (New, Ok) => 2 * Minute
    case (New, Bad) => 1 * Minute
    case (Learning, Good) => 30 * Minute
    case (Learning, Ok) => 10 * Minute
    case (Learning, Bad) => 5 * Minute
    case (Reviewing, Good) => 1 * Day
    case (Reviewing, Ok) => 4 * Hour
    case (Reviewing, Bad) => 1 * Hour
    case (Mastered, Good) => 3 * Day
    case (Mastered, Ok) => 1 * Day
    case (Mastered, Bad) => 4 * Hour
  }

  /** The next review time: now plus the table's interval, at least a minute away. */
  function ScheduleNextReview(level: Level, performance: Performance, now: int): (t: int)
    ensures t - now == ReviewInterval(level, performance)
    ensures now + Minute <= t <= now + 3 * Day
  {
    now + ReviewInterval(level, performance)
  }

  /**
   * A better performance never brings the review closer, and neither does a
   * higher level.
   */
  lemma ReviewIntervalMonotone(level: Level, higher: Level, performance: Performance)
    requires Rank(level) <= Rank(higher)
    ensures ReviewInterval(level, Bad) <= ReviewInterval(level, Ok) <= ReviewInterval(level, Good)
    ensures ReviewInterval(level, performance) <= ReviewInterval(higher, performance)
  {
  }

  // ------------------------------------------------------------------
  // Sentence analysis
  // ------------------------------------------------------------------

  /** Whether some token of the sentence is written in kanji. */
  predicate HasKanjiTokens(sentence: Sentence)
  {
    exists i :: 0 <= i < |sentence.tokens| && sentence.tokens[i].isKanji
  }

  /** The number of kanji tokens. */
  function CountKanjiTokens(tokens: seq<SentenceToken>): (n: nat)
    ensures n <= |tokens|
    ensures n == 0 <==> forall i :: 0 <= i < |tokens| ==> !tokens[i].isKanji
  {
    if tokens == [] then 0
    else
      var n := CountKanjiTokens(tokens[..|tokens| - 1]);
      assert forall i :: 0 <= i < |tokens| - 1 ==> tokens[..|tokens| - 1][i] == tokens[i];
      n + if tokens[|tokens| - 1].isKanji then 1 else 0
  }

  /** The marks the character count leaves out: the listed punctuation without the prolonged sound mark. */
  predicate IsCountedMark(c: char)
  {
    match c
    case '。' | '、' | '？' | '！' | '「' | '」' | '『' | '』' | '（' | '）' | '・' => true
    case _ => false
  }

  /** The number of characters of `text` that are not counted marks. */
  function CountedLength(text: string): (n: nat)
    ensures n <= |text|
    ensures (forall i :: 0 <= i < |text| ==> !IsCountedMark(text[i])) ==> n == |text|
  {
    if text == [] then 0
    else
      assert forall i :: 0 <= i < |text| - 1 ==> text[..|text| - 1][i] == text[i];
      CountedLength(text[..|text| - 1]) + if IsCountedMark(text[|text| - 1]) then 0 else 1
  }

  /** The character count of a sentence: reading characters other than the listed marks. */
  function CharacterCountOf(tokens: seq<SentenceToken>): (n: nat)
  {
    if tokens == [] then 0
    else CharacterCountOf(tokens[..|tokens| - 1]) + CountedLength(tokens[|tokens| - 1].reading)
  }

  /** `getCharacterCount`: counts the readings' characters one by one. */
  method GetCharacterCount(sentence: Sentence) returns (count: nat)
    ensures count == CharacterCountOf(sentence.tokens)
  {
    var tokens := sentence.tokens;
    count := 0;
    var i := 0;
    while i < |tokens|
      invariant 0 <= i <= |tokens|
      invariant count == CharacterCountOf(tokens[..i])
    {
      var reading := tokens[i].reading;
      var j := 0;
      while j < |reading|
        invariant 0 <= j <= |reading|
        invariant count == CharacterCountOf(tokens[..i]) + CountedLength(reading[..j])
      {
        assert reading[..j + 1][..j] == reading[..j];
        if !IsCountedMark(reading[j]) {
          count := count + 1;
        }
        j := j + 1;
      }
      assert reading[..j] == reading;
      assert tokens[..i + 1][..i] == tokens[..i];
      i := i + 1;
    }
    assert tokens[..i] == tokens;
  }

  /** The characters of an already converted reading that are kept for tracking. */
  function KeptKana(reading: string): (r: string)
    ensures |r| <= |reading|
  {
    if reading == [] then []
    else
      var c := reading[|reading| - 1];
      KeptKana(reading[..|reading| - 1]) + if IsDifficultyMark(c) then [] else [c]
  }

  /** The kana of a sentence, each reading converted to hiragana, without the listed marks. */
  function KanaCharacters(tokens: seq<SentenceToken>): string
  {
    if tokens == [] then []
    else KanaCharacters(tokens[..|tokens| - 1]) + KeptKana(ToHiraganaString(tokens[|tokens| - 1].reading))
  }

  /** `extractKanaCharacters`: converts each reading and pushes its kept characters. */
  method ExtractKanaCharacters(sentence: Sentence) returns (chars: string)
    ensures chars == KanaCharacters(sentence.tokens)
  {
    var tokens := sentence.tokens;
    chars := [];
    var i := 0;
    while i < |tokens|
      invariant 0 <= i <= |tokens|
      invariant chars == KanaCharacters(tokens[..i])
    {
      var reading := ToHiraganaString(tokens[i].reading);
      var j := 0;
      while j < |reading|
        invariant 0 <= j <= |reading|
        invariant chars == KanaCharacters(tokens[..i]) + KeptKana(reading[..j])
      {
        assert reading[..j + 1][..j] == reading[..j];
        if !IsDifficultyMark(reading[j]) {
          chars := chars + [reading[j]];
        }
        j := j + 1;
      }
      assert reading[..j] == reading;
      assert tokens[..i + 1][..i] == tokens[..i];
      i := i + 1;
    }
    assert tokens[..i] == tokens;
  }

  /** The kept characters come from the reading and are not marks. */
  lemma {:induction false} KeptKanaMembers(reading: string)
    ensures forall c :: c in KeptKana(reading) ==> c in reading && !IsDifficultyMark(c)
  {
    if reading != [] {
      KeptKanaMembers(reading[..|reading| - 1]);
    }
  }

  /**
   * Every extracted character is scorable: it is not one of the listed
   * marks, not a katakana letter, and has a positive intrinsic difficulty.
   */
  lemma {:induction false} KanaCharactersScorable(tokens: seq<SentenceToken>)
    ensures forall c :: c in KanaCharacters(tokens) ==>
      !IsDifficultyMark(c) && !Romaji.IsKatakanaLetter(c) && IntrinsicDifficulty(c) > 0.0
  {
    if tokens != [] {
      KanaCharactersScorable(tokens[..|tokens| - 1]);
      var reading := ToHiraganaString(tokens[|tokens| - 1].reading);
      KeptKanaMembers(reading);
      forall c | c in KeptKana(reading)
        ensures !Romaji.IsKatakanaLetter(c)
      {
        var k :| 0 <= k < |reading| && reading[k] == c;
      }
    }
  }

  lemma {:induction false} KeptWithinCount(reading: string)
    ensures |KeptKana(ToHiraganaString(reading))| <= CountedLength(reading)
  {
    if reading != [] {
      var n := |reading| - 1;
      KeptWithinCount(reading[..n]);
      assert ToHiraganaString(reading)[..n] == ToHiraganaString(reading[..n]);
      var c := reading[n];
      assert IsCountedMark(c) ==> IsDifficultyMark(ToHiragana(c));
    }
  }

  /**
   * No more characters are tracked than counted: extraction drops the
   * counted marks and also the prolonged sound mark.
   */
  lemma {:induction false} ExtractedWithinCount(tokens: seq<SentenceToken>)
    ensures |KanaCharacters(tokens)| <= CharacterCountOf(tokens)
  {
    if tokens != [] {
      ExtractedWithinCount(tokens[..|tokens| - 1]);
      KeptWithinCount(tokens[|tokens| - 1].reading);
    }
  }

  /** The running totals of the scoring loop over a sentence's characters. */
  datatype CharTally = CharTally(sum: real, count: nat, unknown: nat)

  /** A character is unknown when it has no entry or its entry is still new. */
  predicate IsUnknown(entry: Option<CharacterMasteryData>)
  {
    entry.None? || entry.value.level == New
  }

  /** A character's difficulty adjusted by its mastery score: from 1.5 times (unseen) down to 0.5 times (mastered). */
  function Weighted(intrinsic: real, score: real): (w: real)
    ensures 0.0 <= intrinsic && score <= 1.0 ==> w >= 0.5 * intrinsic
  {
    intrinsic * (1.5 - score)
  }

  /** The blend of the static base, the average character difficulty and the penalty, scaled by length. */
  function Blended(base: real, avgCharDifficulty: real, penalty: real, lengthFactor: real): real
  {
    (base * 0.4 + avgCharDifficulty * 0.6 + penalty) * lengthFactor
  }

  /** One step of the scoring loop: the listed marks are skipped, every other character is scored. */
  function TallyStep(previous: CharTally, c: char, mastery: seq<CharacterMasteryData>): (t: CharTally)
    ensures t.count == previous.count + (if IsDifficultyMark(c) then 0 else 1)
    ensures t.unknown - previous.unknown <= t.count - previous.count
  {
    var intrinsic := IntrinsicDifficulty(c);
    if intrinsic == 0.0 then previous
    else
      var entry := Lookup(mastery, [ToHiragana(c)]);
      var score := if entry.Some? then entry.value.masteryScore else 0.0;
      CharTally(
        previous.sum + Weighted(intrinsic, score),
        previous.count + 1,
        previous.unknown + if IsUnknown(entry) then 1 else 0)
  }

  lemma TallyStepCases(previous: CharTally, c: char, mastery: seq<CharacterMasteryData>)
    ensures IntrinsicDifficulty(c) == 0.0 ==> TallyStep(previous, c, mastery) == previous
    ensures IntrinsicDifficulty(c) != 0.0 ==>
      var entry := Lookup(mastery, [ToHiragana(c)]);
      TallyStep(previous, c, mastery) == CharTally(
        previous.sum + Weighted(IntrinsicDifficulty(c), if entry.Some? then entry.value.masteryScore else 0.0),
        previous.count + 1,
        previous.unknown + if entry.None? || entry.value.level == New then 1 else 0)
  {
  }

  /** The scoring loop's totals: mastery-adjusted difficulty, scored characters, unknown characters. */
  function Tally(chars: string, mastery: seq<CharacterMasteryData>): (t: CharTally)
    ensures t.unknown <= t.count <= |chars|
  {
    if chars == [] then CharTally(0.0, 0, 0)
    else TallyStep(Tally(chars[..|chars| - 1], mastery), chars[|chars| - 1], mastery)
  }

  /** The penalty for a majority of unknown characters: up to 1, zero unless more than half are unknown. */
  function UnknownPenalty(unknown: nat, count: nat): (p: real)
    requires count > 0
    ensures p > 0.0 <==> 2 * unknown > count
    ensures unknown <= count ==> p <= 1.0
    ensures p >= 0.0
  {
    var ratio := unknown as real / count as real;
    RatioFacts(unknown as real, count as real);
    if ratio > 0.5 then (ratio - 0.5) * 2.0 else 0.0
  }

  /** The arithmetic behind the penalty. */
  lemma RatioFacts(u: real, c: real)
    requires c > 0.0
    ensures u / c > 0.5 <==> u > 0.5 * c
    ensures 0.0 <= u <= c ==> u / c <= 1.0
  {
    var r := u / c;
    assert r * c == u;
    if r > 0.5 {
      assert (r - 0.5) * c > 0.0;
    } else {
      assert (0.5 - r) * c >= 0.0;
    }
    if r > 1.0 {
      assert (r - 1.0) * c > 0.0;
    }
  }

  /** The length factor: one tenth more per token beyond four. */
  function LengthFactor(tokenCount: nat): (f: real)
    ensures f >= 1.0
    ensures f == 1.0 <==> tokenCount <= 4
  {
    1.0 + Max(0.0, (tokenCount as real - 4.0) * 0.1)
  }

  /**
   * The estimated difficulty of a sentence: its static difficulty plus 0.8
   * per kanji token when no kana is left to score; otherwise that base
   * blended with the average mastery-adjusted character difficulty and the
   * unknown-character penalty, scaled by the length factor.
   */
  function SentenceDifficulty(sentence: Sentence, mastery: seq<CharacterMasteryData>): (d: real)
  {
    var base := sentence.difficulty + CountKanjiTokens(sentence.tokens) as real * 0.8;
    var chars := KanaCharacters(sentence.tokens);
    var t := Tally(chars, mastery);
    if |chars| == 0 || t.count == 0 then base
    else
      Blended(base, t.sum / t.count as real, UnknownPenalty(t.unknown, t.count), LengthFactor(|sentence.tokens|))
  }

  /** `calculateSentenceDifficulty`: the base, the kana to score, their totals, then the blend. */
  method CalculateSentenceDifficulty(sentence: Sentence, mastery: seq<CharacterMasteryData>) returns (d: real)
    ensures d == SentenceDifficulty(sentence, mastery)
  {
    var baseDifficulty := sentence.difficulty;
    var kanjiCount := CountKanjiTokens(sentence.tokens);
    if kanjiCount > 0 {
      baseDifficulty := baseDifficulty + kanjiCount as real * 0.8;
    }
    var chars := ExtractKanaCharacters(sentence);
    if |chars| == 0 {
      return baseDifficulty;
    }
    var charDifficulty, charCount, unknownCount := TallyCharacters(chars, mastery);
    if charCount == 0 {
      return baseDifficulty;
    }
    var avgCharDifficulty := charDifficulty / charCount as real;
    var unknownPenalty := UnknownPenalty(unknownCount, charCount);
    var lengthFactor := LengthFactor(|sentence.tokens|);
    d := Blended(baseDifficulty, avgCharDifficulty, unknownPenalty, lengthFactor);
  }

  /** The scoring loop of `calculateSentenceDifficulty`: accumulates the totals character by character. */
  method TallyCharacters(chars: string, mastery: seq<CharacterMasteryData>)
    returns (charDifficulty: real, charCount: nat, unknownCount: nat)
    ensures CharTally(charDifficulty, charCount, unknownCount) == Tally(chars, mastery)
  {
    charDifficulty, charCount, unknownCount := 0.0, 0, 0;
    var i := 0;
    while i < |chars|
      invariant 0 <= i <= |chars|
      invariant Tally(chars[..i], mastery) == CharTally(charDifficulty, charCount, unknownCount)
    {
      ghost var previous := CharTally(charDifficulty, charCount, unknownCount);
      var c := chars[i];
      assert Tally(chars[..i + 1], mastery) == TallyStep(previous, c, mastery) by {
        assert chars[..i + 1][..i] == chars[..i];
      }
      TallyStepCases(previous, c, mastery);
      var intrinsic := IntrinsicDifficulty(c);
      if intrinsic != 0.0 {
        var entry := Lookup(mastery, [ToHiragana(c)]);
        var masteryScore := if entry.Some? then entry.value.masteryScore else 0.0;
        if entry.None? || entry.value.level == New {
          unknownCount := unknownCount + 1;
        }
        charDifficulty := charDifficulty + Weighted(intrinsic, masteryScore);
        charCount := charCount + 1;
      }
      i := i + 1;
    }
    assert chars[..i] == chars;
  }

  /** With no kana left to score the estimate is the static difficulty plus 0.8 per kanji token. */
  lemma NoKanaDifficulty(sentence: Sentence, mastery: seq<CharacterMasteryData>)
    requires KanaCharacters(sentence.tokens) == []
    ensures SentenceDifficulty(sentence, mastery)
      == sentence.difficulty + 0.8 * CountKanjiTokens(sentence.tokens) as real
  {
  }

  lemma {:induction false} KanaIgnoresKanjiFlag(tokens: seq<SentenceToken>, flagged: seq<SentenceToken>)
    requires |tokens| == |flagged|
    requires forall k :: 0 <= k < |tokens| ==> tokens[k].reading == flagged[k].reading
    ensures KanaCharacters(tokens) == KanaCharacters(flagged)
  {
    if tokens != [] {
      KanaIgnoresKanjiFlag(tokens[..|tokens| - 1], flagged[..|flagged| - 1]);
    }
  }

  lemma {:induction false} FlagAddsOneKanji(tokens: seq<SentenceToken>, i: nat)
    requires i < |tokens| && !tokens[i].isKanji
    ensures CountKanjiTokens(tokens[i := tokens[i].(isKanji := true)]) == CountKanjiTokens(tokens) + 1
  {
    var flagged := tokens[i := tokens[i].(isKanji := true)];
    var n := |tokens| - 1;
    if i < n {
      assert flagged[..n] == tokens[..n][i := tokens[i].(isKanji := true)];
      FlagAddsOneKanji(tokens[..n], i);
    } else {
      assert flagged[..n] == tokens[..n];
    }
  }

  /** A higher base gives a higher blend. */
  lemma BlendedRaisedBase(base: real, avgCharDifficulty: real, penalty: real, lengthFactor: real)
    requires lengthFactor >= 1.0
    ensures Blended(base, avgCharDifficulty, penalty, lengthFactor)
      < Blended(base + 0.8, avgCharDifficulty, penalty, lengthFactor)
  {
    var rest := avgCharDifficulty * 0.6 + penalty;
    assert ((base + 0.8) * 0.4 + rest) * lengthFactor - (base * 0.4 + rest) * lengthFactor == 0.32 * lengthFactor;
  }

  /** Marking a kana token as kanji makes the sentence strictly harder. */
  lemma KanjiFlagRaisesDifficulty(sentence: Sentence, i: nat, mastery: seq<CharacterMasteryData>)
    requires i < |sentence.tokens| && !sentence.tokens[i].isKanji
    ensures var flagged := sentence.(tokens := sentence.tokens[i := sentence.tokens[i].(isKanji := true)]);
      SentenceDifficulty(sentence, mastery) < SentenceDifficulty(flagged, mastery)
  {
    var flagged := sentence.(tokens := sentence.tokens[i := sentence.tokens[i].(isKanji := true)]);
    KanaIgnoresKanjiFlag(sentence.tokens, flagged.tokens);
    FlagAddsOneKanji(sentence.tokens, i);
    var chars := KanaCharacters(sentence.tokens);
    var t := Tally(chars, mastery);
    var base := sentence.difficulty + CountKanjiTokens(sentence.tokens) as real * 0.8;
    assert sentence.difficulty + CountKanjiTokens(flagged.tokens) as real * 0.8 == base + 0.8;
    if |chars| > 0 && t.count > 0 {
      BlendedRaisedBase(base, t.sum / t.count as real, UnknownPenalty(t.unknown, t.count), LengthFactor(|sentence.tokens|));
    }
  }

  // ------------------------------------------------------------------
  // Level filter
  // ------------------------------------------------------------------

  /** The highest static difficulty offered at a difficulty level. */
  function MaxAllowedDifficulty(currentDifficulty: real): (m: real)
    ensures 1.2 <= m <= 3.5
    ensures currentDifficulty < 1.2 <==> m == 1.2
    ensures currentDifficulty >= 3.0 <==> m == 3.5
  {
    if currentDifficulty < 1.2 then 1.2
    else if currentDifficulty < 1.5 then 1.5
    else if currentDifficulty < 2.0 then 2.0
    else if currentDifficulty < 3.0 then 2.5
    else 3.5
  }

  /** A higher level never lowers the cap. */
  lemma MaxAllowedMonotone(lower: real, higher: real)
    requires lower <= higher
    ensures MaxAllowedDifficulty(lower) <= MaxAllowedDifficulty(higher)
  {
  }

  /** The number of tracked characters at level reviewing or mastered. */
  function ReviewedCount(mastery: seq<CharacterMasteryData>): (n: nat)
    ensures n <= |mastery|
  {
    if mastery == [] then 0
    else
      var last := mastery[|mastery| - 1];
      ReviewedCount(mastery[..|mastery| - 1]) + if last.level == Mastered || last.level == Reviewing then 1 else 0
  }

  /** `isReadyForKanji`: counts the reviewed and the learning characters; ready at 30 reviewed. */
  method IsReadyForKanji(mastery: seq<CharacterMasteryData>) returns (ready: bool)
    ensures ready <==> ReviewedCount(mastery) >= 30
    ensures ready ==> |mastery| >= 30
  {
    var masteredCount := 0;
    var learningCount := 0;
    var i := 0;
    while i < |mastery|
      invariant 0 <= i <= |mastery|
      invariant masteredCount == ReviewedCount(mastery[..i])
    {
      assert mastery[..i + 1][..i] == mastery[..i];
      if mastery[i].level == Mastered || mastery[i].level == Reviewing {
        masteredCount := masteredCount + 1;
      } else if mastery[i].level == Learning {
        learningCount := learningCount + 1;
      }
      i := i + 1;
    }
    assert mastery[..i] == mastery;
    ready := masteredCount >= 30;
  }

  /** A sentence passes the level filter: under the cap, and free of kanji unless the learner is ready. */
  predicate Eligible(sentence: Sentence, maxDifficulty: real, kanjiReady: bool)
  {
    sentence.difficulty <= maxDifficulty && (kanjiReady || !HasKanjiTokens(sentence))
  }

  /** `filterSentencesByLevel`: the sentences under the level's cap, without kanji before readiness. */
  function FilterSentencesByLevel(sentences: seq<Sentence>, currentDifficulty: real, mastery: seq<CharacterMasteryData>): (r: seq<Sentence>)
    ensures |r| <= |sentences|
    ensures forall x :: x in r <==>
      x in sentences && Eligible(x, MaxAllowedDifficulty(currentDifficulty), ReviewedCount(mastery) >= 30)
  {
    var maxDifficulty := MaxAllowedDifficulty(currentDifficulty);
    var kanjiReady := ReviewedCount(mastery) >= 30;
    Sorting.Filter(sentences, x => Eligible(x, maxDifficulty, kanjiReady))
  }

  // ------------------------------------------------------------------
  // Fit score
  // ------------------------------------------------------------------

  /** `new Set(chars)` in iteration order: each character once, at its first occurrence. */
  function UniqueChars(chars: string): (u: string)
    ensures |u| <= |chars|
    ensures forall c :: c in u <==> c in chars
    ensures forall i, j :: 0 <= i < j < |u| ==> u[i] != u[j]
  {
    if chars == [] then []
    else
      var previous := UniqueChars(chars[..|chars| - 1]);
      var c := chars[|chars| - 1];
      assert chars == chars[..|chars| - 1] + [c];
      if c in previous then previous else previous + [c]
  }

  /** A review is due when the next review time is set, not zero, and not after now. */
  predicate ReviewDue(entry: Option<CharacterMasteryData>, now: int)
  {
    entry.Some? && entry.value.nextReview.Some? && entry.value.nextReview.value != 0
      && entry.value.nextReview.value <= now
  }

  /** The number of characters whose review is due. */
  function DueCount(chars: string, mastery: seq<CharacterMasteryData>, now: int): (n: nat)
    ensures n <= |chars|
  {
    if chars == [] then 0
    else
      DueCount(chars[..|chars| - 1], mastery, now)
        + if ReviewDue(Lookup(mastery, [ToHiragana(chars[|chars| - 1])]), now) then 1 else 0
  }

  /** The number of characters without an entry or still new. */
  function NewCount(chars: string, mastery: seq<CharacterMasteryData>): (n: nat)
    ensures n <= |chars|
  {
    if chars == [] then 0
    else
      NewCount(chars[..|chars| - 1], mastery)
        + if IsUnknown(Lookup(mastery, [ToHiragana(chars[|chars| - 1])])) then 1 else 0
  }

  /** The bonus for the number of new characters: best for one to three, a penalty beyond five. */
  function NewCharBonus(newCount: nat): (b: real)
    ensures b <= 0.2
    ensures b == 0.2 <==> 1 <= newCount <= 3
    ensures b < 0.0 <==> newCount > 5
  {
    if 1 <= newCount <= 3 then 0.2
    else if newCount > 5 then -0.3
    else 0.0
  }

  /** How close a difficulty is to the target: 1 at the target, falling off relative to a target of at least 1. */
  function DifficultyMatch(difficulty: real, target: real): (m: real)
    ensures m <= 1.0
    ensures m == 1.0 <==> difficulty == target
  {
    var scale := Max(1.0, target);
    var off := Abs(difficulty - target);
    assert off / scale * scale == off;
    assert off / scale == 0.0 <==> off == 0.0;
    1.0 - off / scale
  }

  /** A difficulty closer to the target matches at least as well. */
  lemma DifficultyMatchPrefersCloser(closer: real, farther: real, target: real)
    requires Abs(closer - target) <= Abs(farther - target)
    ensures DifficultyMatch(farther, target) <= DifficultyMatch(closer, target)
  {
    var scale := Max(1.0, target);
    var a := Abs(closer - target) / scale;
    var b := Abs(farther - target) / scale;
    assert a * scale == Abs(closer - target);
    assert b * scale == Abs(farther - target);
    assert (b - a) * scale >= 0.0;
  }

  /**
   * The fit of a sentence at an estimated difficulty: half the difficulty
   * match, plus up to 0.09 for characters due for review, plus 0.04 for one
   * to three new characters or minus 0.06 for more than five.
   */
  function FitScore(sentence: Sentence, difficulty: real, target: real, mastery: seq<CharacterMasteryData>, now: int): real
  {
    var unique := UniqueChars(KanaCharacters(sentence.tokens));
    var reviewBonus := Min(0.3, DueCount(unique, mastery, now) as real * 0.1);
    DifficultyMatch(difficulty, target) * 0.5 + reviewBonus * 0.3 + NewCharBonus(NewCount(unique, mastery)) * 0.2
  }

  /** `calculateFitScore`: counts due and new characters over the distinct kana, then weighs the three parts. */
  method CalculateFitScore(sentence: Sentence, difficulty: real, target: real, mastery: seq<CharacterMasteryData>, now: int)
    returns (fit: real)
    ensures fit == FitScore(sentence, difficulty, target, mastery, now)
  {
    var difficultyMatch := DifficultyMatch(difficulty, target);
    var chars := ExtractKanaCharacters(sentence);
    var uniqueChars := UniqueChars(chars);
    var reviewDueCount, newCharCount := CountDueAndNew(uniqueChars, mastery, now);
    var reviewBonus := Min(0.3, reviewDueCount as real * 0.1);
    var newCharBonus := 0.0;
    if 1 <= newCharCount <= 3 {
      newCharBonus := 0.2;
    } else if newCharCount > 5 {
      newCharBonus := -0.3;
    }
    fit := difficultyMatch * 0.5 + reviewBonus * 0.3 + newCharBonus * 0.2;
  }

  /** The counting loop of `calculateFitScore`: characters due for review, and characters new or unseen. */
  method CountDueAndNew(uniqueChars: string, mastery: seq<CharacterMasteryData>, now: int)
    returns (reviewDueCount: nat, newCharCount: nat)
    ensures reviewDueCount == DueCount(uniqueChars, mastery, now)
    ensures newCharCount == NewCount(uniqueChars, mastery)
  {
    reviewDueCount, newCharCount := 0, 0;
    var i := 0;
    while i < |uniqueChars|
      invariant 0 <= i <= |uniqueChars|
      invariant reviewDueCount == DueCount(uniqueChars[..i], mastery, now)
      invariant newCharCount == NewCount(uniqueChars[..i], mastery)
    {
      assert uniqueChars[..i + 1][..i] == uniqueChars[..i];
      var entry := Lookup(mastery, [ToHiragana(uniqueChars[i])]);
      if entry.Some? && entry.value.nextReview.Some? && entry.value.nextReview.value != 0
        && entry.value.nextReview.value <= now
      {
        reviewDueCount := reviewDueCount + 1;
      }
      if entry.None? || entry.value.level == New {
        newCharCount := newCharCount + 1;
      }
      i := i + 1;
    }
    assert uniqueChars[..i] == uniqueChars;
  }

  /**
   * The fit is at most 0.63, and of two difficulties for the same sentence
   * the one closer to the target fits at least as well.
   */
  lemma FitScoreProperties(sentence: Sentence, closer: real, farther: real, target: real,
                           mastery: seq<CharacterMasteryData>, now: int)
    requires Abs(closer - target) <= Abs(farther - target)
    ensures FitScore(sentence, closer, target, mastery, now) <= 0.63
    ensures FitScore(sentence, farther, target, mastery, now) <= FitScore(sentence, closer, target, mastery, now)
  {
    DifficultyMatchPrefersCloser(closer, farther, target);
  }

  // ------------------------------------------------------------------
  // Sentence selection
  // ------------------------------------------------------------------

  /** A candidate with its estimated difficulty and fit. */
  datatype ScoredSentence = ScoredSentence(
    sentence: Sentence,
    difficulty: real,
    fitScore: real,
    hasKanji: bool,
    charCount: nat)

  /** The scoring of one pool sentence. */
  function ScoreOf(sentence: Sentence, target: real, mastery: seq<CharacterMasteryData>, now: int): (s: ScoredSentence)
    ensures s.sentence == sentence
  {
    var difficulty := SentenceDifficulty(sentence, mastery);
    ScoredSentence(sentence, difficulty, FitScore(sentence, difficulty, target, mastery, now),
      HasKanjiTokens(sentence), CharacterCountOf(sentence.tokens))
  }

  /** A scored entry built from the sentence's estimated difficulty, fit and character count is its scoring. */
  lemma ScoreOfParts(sentence: Sentence, target: real, mastery: seq<CharacterMasteryData>, now: int,
                     difficulty: real, fitScore: real, charCount: nat)
    requires difficulty == SentenceDifficulty(sentence, mastery)
    requires fitScore == FitScore(sentence, difficulty, target, mastery, now)
    requires charCount == CharacterCountOf(sentence.tokens)
    ensures ScoredSentence(sentence, difficulty, fitScore, HasKanjiTokens(sentence), charCount)
      == ScoreOf(sentence, target, mastery, now)
  {
  }

  /** Scores every sentence of the pool, in pool order. */
  method ScorePool(pool: seq<Sentence>, target: real, mastery: seq<CharacterMasteryData>, now: int)
    returns (scored: seq<ScoredSentence>)
    ensures |scored| == |pool|
    ensures forall i :: 0 <= i < |pool| ==> scored[i] == ScoreOf(pool[i], target, mastery, now)
  {
    scored := [];
    var i := 0;
    while i < |pool|
      invariant 0 <= i <= |pool|
      invariant |scored| == i
      invariant forall k :: 0 <= k < i ==> scored[k] == ScoreOf(pool[k], target, mastery, now)
    {
      var sentence := pool[i];
      var difficulty := CalculateSentenceDifficulty(sentence, mastery);
      var fitScore := CalculateFitScore(sentence, difficulty, target, mastery, now);
      var charCount := GetCharacterCount(sentence);
      var entry := ScoredSentence(sentence, difficulty, fitScore, HasKanjiTokens(sentence), charCount);
      ScoreOfParts(sentence, target, mastery, now, difficulty, fitScore, charCount);
      scored := scored + [entry];
      i := i + 1;
    }
  }

  /** The sort key putting the best fit first. */
  function ByFitDescending(s: ScoredSentence): real
  {
    -s.fitScore
  }

  /** The cumulative weights of the beginner pick: 40%, 25%, 20%, 10% and 5%. */
  const SelectionWeights: seq<real> := [0.4, 0.65, 0.85, 0.95, 1.0]

  /** The weight band a roll falls in: the first index whose cumulative weight exceeds it. */
  function WeightBand(roll: real): (b: nat)
    requires 0.0 <= roll < 1.0
    ensures b < 5
    ensures roll < SelectionWeights[b]
    ensures forall k :: 0 <= k < b ==> SelectionWeights[k] <= roll
  {
    if roll < 0.4 then 0
    else if roll < 0.65 then 1
    else if roll < 0.85 then 2
    else if roll < 0.95 then 3
    else 4
  }

  /**
   * The beginner pick: the first of the top candidates whose cumulative
   * weight exceeds the roll; when the roll's band lies beyond the
   * candidates the best one is taken.
   */
  method WeightedIndex(roll: real, topN: nat) returns (idx: nat)
    requires 0.0 <= roll < 1.0 && topN <= 5
    ensures idx == if WeightBand(roll) < topN then WeightBand(roll) else 0
  {
    idx := 0;
    var i := 0;
    while i < topN
      invariant 0 <= i <= topN
      invariant idx == 0
      invariant forall k :: 0 <= k < i ==> SelectionWeights[k] <= roll
    {
      if roll < SelectionWeights[i] {
        idx := i;
        break;
      }
      i := i + 1;
    }
  }

  /** A higher roll never gives an earlier band. */
  lemma WeightBandMonotone(low: real, high: real)
    requires 0.0 <= low <= high < 1.0
    ensures WeightBand(low) <= WeightBand(high)
  {
  }

  /** The candidates harder than a threshold, best fit first. */
  function Harder(scored: seq<ScoredSentence>, threshold: real): (r: seq<ScoredSentence>)
    ensures forall x :: x in r <==> x in scored && x.difficulty > threshold
  {
    Sorting.Filter(scored, (s: ScoredSentence) => s.difficulty > threshold)
  }

  /** The candidates easier than a threshold, best fit first. */
  function Easier(scored: seq<ScoredSentence>, threshold: real): (r: seq<ScoredSentence>)
    ensures forall x :: x in r <==> x in scored && x.difficulty < threshold
  {
    Sorting.Filter(scored, (s: ScoredSentence) => s.difficulty < threshold)
  }

  /** `selected` is the sentence of one of the first `n` candidates of `xs`. */
  ghost predicate PickedFrom(xs: seq<ScoredSentence>, n: nat, selected: Sentence)
  {
    exists k :: 0 <= k < |xs| && k < n && xs[k].sentence == selected
  }

  /**
   * The shape of the intermediate and advanced picks: below `probeShare`
   * one of the three best harder candidates, up to `comfortShare` one of the
   * three best easier candidates (the best candidate when there is none),
   * otherwise one of the top five.
   */
  ghost predicate ProbeComfortOrTarget(scored: seq<ScoredSentence>, roll: real, probeShare: real, comfortShare: real,
                                       harderThan: real, easierThan: real, selected: Sentence)
    requires |scored| > 0
  {
    var harder := Harder(scored, harderThan);
    var easier := Easier(scored, easierThan);
    && (roll < probeShare ==>
          if harder != [] then PickedFrom(harder, 3, selected) else selected == scored[0].sentence)
    && (probeShare <= roll < comfortShare ==>
          if easier != [] then PickedFrom(easier, 3, selected) else selected == scored[0].sentence)
    && (comfortShare <= roll ==> PickedFrom(scored, 5, selected))
  }

  /** One of the first three of a non-empty candidate list, chosen by the second draw. */
  function PickTopThree(xs: seq<ScoredSentence>, pick: real): (s: Sentence)
    requires |xs| > 0 && 0.0 <= pick < 1.0
    ensures PickedFrom(xs, 3, s)
  {
    var i := PickIndex(pick, if |xs| < 3 then |xs| else 3);
    xs[i].sentence
  }

  /**
   * The level-dependent pick from the ranked candidates: weighted towards
   * the best five for beginners (difficulty below 1.5); for intermediates
   * (below 2.5) 10% harder than the target, 20% below 0.9 of it, else the
   * top five; for advanced learners 15% above 1.2 times the target, 20%
   * below 0.8 of it, else the top five.
   */
  method ChooseCandidate(scored: seq<ScoredSentence>, target: real, roll: real, pick: real) returns (selected: Sentence)
    requires |scored| > 0 && 0.0 <= roll < 1.0 && 0.0 <= pick < 1.0
    ensures PickedFrom(scored, |scored|, selected)
    ensures target < 1.5 ==>
      var topN := if |scored| < 5 then |scored| else 5;
      selected == scored[if WeightBand(roll) < topN then WeightBand(roll) else 0].sentence
    ensures 1.5 <= target < 2.5 ==>
      ProbeComfortOrTarget(scored, roll, 0.10, 0.30, target, target * 0.9, selected)
    ensures 2.5 <= target ==>
      ProbeComfortOrTarget(scored, roll, 0.15, 0.35, target * 1.2, target * 0.8, selected)
  {
    var topN := if |scored| < 5 then |scored| else 5;
    if target < 1.5 {
      var idx := WeightedIndex(roll, topN);
      selected := scored[idx].sentence;
    } else if target < 2.5 {
      if roll < 0.10 {
        var harder := Harder(scored, target);
        if |harder| > 0 {
          selected := PickTopThree(harder, pick);
        } else {
          selected := scored[0].sentence;
        }
      } else if roll < 0.30 {
        var easier := Easier(scored, target * 0.9);
        if |easier| > 0 {
          selected := PickTopThree(easier, pick);
        } else {
          selected := scored[0].sentence;
        }
      } else {
        selected := scored[PickIndex(pick, topN)].sentence;
      }
    } else {
      if roll < 0.15 {
        var harder := Harder(scored, target * 1.2);
        if |harder| > 0 {
          selected := PickTopThree(harder, pick);
        } else {
          selected := scored[0].sentence;
        }
      } else if roll < 0.35 {
        var easier := Easier(scored, target * 0.8);
        if |easier| > 0 {
          selected := PickTopThree(easier, pick);
        } else {
          selected := scored[0].sentence;
        }
      } else {
        selected := scored[PickIndex(pick, topN)].sentence;
      }
    }
    PickedFromWider(scored, Harder(scored, target), selected);
    PickedFromWider(scored, Easier(scored, target * 0.9), selected);
    PickedFromWider(scored, Harder(scored, target * 1.2), selected);
    PickedFromWider(scored, Easier(scored, target * 0.8), selected);
  }

  /** A pick from a sub-list of the candidates is a pick from the candidates. */
  lemma PickedFromWider(scored: seq<ScoredSentence>, sub: seq<ScoredSentence>, selected: Sentence)
    requires forall x :: x in sub ==> x in scored
    ensures PickedFrom(sub, 3, selected) ==> PickedFrom(scored, |scored|, selected)
  {
    if PickedFrom(sub, 3, selected) {
      var k :| 0 <= k < |sub| && k < 3 && sub[k].sentence == selected;
      assert sub[k] in scored;
      var j :| 0 <= j < |scored| && scored[j] == sub[k];
    }
  }

  /** The first `n` recent ids (most recent first). */
  function Recent(recentIds: seq<string>, n: nat): (r: seq<string>)
    ensures r <= recentIds
    ensures |r| == if |recentIds| < n then |recentIds| else n
  {
    recentIds[..if |recentIds| < n then |recentIds| else n]
  }

  /** The last three ids are among the last fifteen, and the last one is among the last three. */
  lemma RecentNested(recentIds: seq<string>)
    ensures forall id :: id in Recent(recentIds, 3) ==> id in Recent(recentIds, 15)
    ensures |recentIds| > 0 ==> recentIds[0] in Recent(recentIds, 3)
  {
    forall id | id in Recent(recentIds, 3)
      ensures id in Recent(recentIds, 15)
    {
      var k :| 0 <= k < |Recent(recentIds, 3)| && Recent(recentIds, 3)[k] == id;
      assert Recent(recentIds, 15)[k] == id;
    }
    if |recentIds| > 0 {
      assert Recent(recentIds, 3)[0] == recentIds[0];
    }
  }

  /**
   * The selection pool: the level-filtered sentences not among the last
   * fifteen shown when at least three remain, otherwise those not among
   * the last three.
   */
  function Pool(sentences: seq<Sentence>, currentDifficulty: real, mastery: seq<CharacterMasteryData>, recentIds: seq<string>)
    : (pool: seq<Sentence>)
    ensures forall x :: x in pool ==>
      && x in sentences
      && Eligible(x, MaxAllowedDifficulty(currentDifficulty), ReviewedCount(mastery) >= 30)
      && x.id !in Recent(recentIds, 3)
    ensures |WithoutRecent(FilterSentencesByLevel(sentences, currentDifficulty, mastery), Recent(recentIds, 15))| >= 3
      ==> forall x :: x in pool ==> x.id !in Recent(recentIds, 15)
    ensures var excluded :=
        if |WithoutRecent(FilterSentencesByLevel(sentences, currentDifficulty, mastery), Recent(recentIds, 15))| >= 3
        then Recent(recentIds, 15) else Recent(recentIds, 3);
      forall x :: x in pool <==>
        && x in sentences
        && Eligible(x, MaxAllowedDifficulty(currentDifficulty), ReviewedCount(mastery) >= 30)
        && x.id !in excluded
  {
    var levelFiltered := FilterSentencesByLevel(sentences, currentDifficulty, mastery);
    var available := WithoutRecent(levelFiltered, Recent(recentIds, 15));
    RecentNested(recentIds);
    if |available| >= 3 then available else WithoutRecent(levelFiltered, Recent(recentIds, 3))
  }

  /** The first candidate whose id differs from `id`. */
  function FirstOtherThan(scored: seq<ScoredSentence>, id: string): (r: Option<ScoredSentence>)
    ensures r.Some? ==> r.value in scored && r.value.sentence.id != id
    ensures r.None? <==> forall k :: 0 <= k < |scored| ==> scored[k].sentence.id == id
  {
    if scored == [] then None
    else if scored[0].sentence.id != id then Some(scored[0])
    else
      assert forall k :: 1 <= k < |scored| ==> scored[k] == scored[1..][k - 1];
      FirstOtherThan(scored[1..], id)
  }

  /** The pool scored and ranked best fit first (a stable sort). */
  function Ranked(pool: seq<Sentence>, target: real, mastery: seq<CharacterMasteryData>, now: int): (r: seq<ScoredSentence>)
    ensures |r| == |pool|
    ensures forall x :: x in r ==> x.sentence in pool
    ensures multiset(r) == multiset(seq(|pool|, i requires 0 <= i < |pool| => ScoreOf(pool[i], target, mastery, now)))
  {
    var scored := seq(|pool|, i requires 0 <= i < |pool| => ScoreOf(pool[i], target, mastery, now));
    var r := Sorting.SortBy(scored, ByFitDescending);
    forall x | x in r
      ensures x.sentence in pool
    {
      assert x in multiset(scored);
      var i :| 0 <= i < |scored| && scored[i] == x;
    }
    r
  }

  /** The ranking puts the best fit first. */
  lemma RankedBestFirst(pool: seq<Sentence>, target: real, mastery: seq<CharacterMasteryData>, now: int)
    ensures var r := Ranked(pool, target, mastery, now);
      forall i, j :: 0 <= i < j < |r| ==> r[j].fitScore <= r[i].fitScore
  {
    var scored := seq(|pool|, i requires 0 <= i < |pool| => ScoreOf(pool[i], target, mastery, now));
    Sorting.SortBySorted(scored, ByFitDescending);
  }

  /**
   * `selectNextSentence`. `roll` is the first random draw and `pick` the
   * second. The result is `None` only for an empty sentence list, where the
   * source returns `undefined`. When the pool is empty the result is a
   * sentence not shown among the last fifteen if there is one, else the
   * first sentence. The final guard against repeating the last sentence
   * never fires: the pool already excludes it (see `FirstOtherThan`).
   */
  method SelectNextSentence(profile: UserProfile, sentences: seq<Sentence>, mastery: seq<CharacterMasteryData>,
                            recentIds: seq<string>, roll: real, pick: real, now: int)
    returns (selected: Option<Sentence>)
    requires 0.0 <= roll < 1.0 && 0.0 <= pick < 1.0
    ensures selected.None? <==> sentences == []
    ensures selected.Some? ==> selected.value in sentences
    ensures var pool := Pool(sentences, profile.currentDifficulty, mastery, recentIds);
      pool != [] ==> selected.Some? && selected.value in pool
    ensures var pool := Pool(sentences, profile.currentDifficulty, mastery, recentIds);
      pool != [] && |recentIds| > 0 ==> selected.value.id != recentIds[0]
    ensures selected.Some? && |recentIds| > 0 && selected.value.id == recentIds[0] ==>
      forall x :: x in sentences ==> x.id in Recent(recentIds, 15)
    ensures var pool := Pool(sentences, profile.currentDifficulty, mastery, recentIds);
      pool != [] && profile.currentDifficulty < 1.5 ==>
        PickedFrom(Ranked(pool, profile.currentDifficulty, mastery, now), 5, selected.value)
    ensures var pool := Pool(sentences, profile.currentDifficulty, mastery, recentIds);
      pool == [] && (exists x :: x in sentences && x.id !in Recent(recentIds, 15)) ==>
        selected.value.id !in Recent(recentIds, 15)
    ensures var pool := Pool(sentences, profile.currentDifficulty, mastery, recentIds);
      pool == [] && sentences != [] && (forall x :: x in sentences ==> x.id in Recent(recentIds, 15)) ==>
        selected == Some(sentences[0])
  {
    var targetDifficulty := profile.currentDifficulty;
    var pool := Pool(sentences, targetDifficulty, mastery, recentIds);
    RecentNested(recentIds);
    if |pool| == 0 {
      var anyAvailable := WithoutRecent(sentences, Recent(recentIds, 15));
      if |anyAvailable| > 0 {
        selected := Some(anyAvailable[PickIndex(roll, |anyAvailable|)]);
        return;
      }
      if |sentences| == 0 {
        return None;
      }
      return Some(sentences[0]);
    }
    var scored := ScorePool(pool, targetDifficulty, mastery, now);
    assert scored == seq(|pool|, i requires 0 <= i < |pool| => ScoreOf(pool[i], targetDifficulty, mastery, now));
    scored := Sorting.SortBy(scored, ByFitDescending);
    assert scored == Ranked(pool, targetDifficulty, mastery, now);
    var chosen := ChooseCandidate(scored, targetDifficulty, roll, pick);
    var k :| 0 <= k < |scored| && scored[k].sentence == chosen;
    assert scored[k] in scored;
    if |recentIds| > 0 && chosen.id == recentIds[0] && |scored| > 1 {
      // The source falls back to the best candidate with another id here;
      // every candidate comes from the pool, which excludes the last id.
      assert false;
    }
    selected := Some(chosen);
  }

  // ------------------------------------------------------------------
  // Difficulty adjustment, speed baseline and overall skill
  // ------------------------------------------------------------------

  /** The outcome of one completed sentence. */
  datatype SentenceResult = SentenceResult(
    sentenceId: string,
    accuracy: real,
    avgTimeMs: real,
    totalTimeMs: int,
    hintsUsed: nat,
    totalChars: nat,
    correctChars: nat,
    hadErrors: bool)

  /** High accuracy, faster than 0.9 of the baseline, no hint and no error. */
  predicate IsCrushingIt(profile: UserProfile, result: SentenceResult)
  {
    && result.accuracy >= 0.95
    && result.avgTimeMs < profile.speedBaselineMs * 0.9
    && result.hintsUsed == 0
    && !result.hadErrors
  }

  /** Low accuracy or any error. */
  predicate IsStruggling(result: SentenceResult)
  {
    result.accuracy < 0.7 || result.hadErrors
  }

  /** A sentence is never both crushed and struggled with. */
  lemma CrushingExcludesStruggling(profile: UserProfile, result: SentenceResult)
    ensures !(IsCrushingIt(profile, result) && IsStruggling(result))
  {
  }

  /**
   * `adjustDifficulty`: the fifth crushed sentence in a row raises the
   * difficulty by 8% and restarts the count; the second struggled sentence
   * in a row lowers it by 10% and restarts that count; any other sentence
   * clears both counts and raises the difficulty by 1% when accurate and
   * faster than the baseline. The difficulty ends in [0.8, 5]. Only the
   * difficulty and the two counts are set.
   */
  method AdjustDifficulty(profile: UserProfile, result: SentenceResult) returns (u: ProfileUpdate)
    ensures u.overallSkill.None? && u.speedBaselineMs.None? && u.totalPracticeMs.None? && u.charsTypedTotal.None?
    ensures u.currentDifficulty.Some? && u.consecutivePerfect.Some? && u.consecutiveStruggle.Some?
    ensures 0.8 <= u.currentDifficulty.value <= 5.0
    ensures u.consecutivePerfect.value == 0 || u.consecutiveStruggle.value == 0
    ensures profile.consecutivePerfect < 5 ==> u.consecutivePerfect.value < 5
    ensures profile.consecutiveStruggle < 2 ==> u.consecutiveStruggle.value < 2
    ensures IsCrushingIt(profile, result) ==>
      && u.consecutiveStruggle == Some(0)
      && (profile.consecutivePerfect + 1 >= 5 ==>
            u.consecutivePerfect == Some(0)
            && u.currentDifficulty == Some(Clamp(0.8, 5.0, profile.currentDifficulty * 1.08)))
      && (profile.consecutivePerfect + 1 < 5 ==>
            u.consecutivePerfect == Some(profile.consecutivePerfect + 1)
            && u.currentDifficulty == Some(Clamp(0.8, 5.0, profile.currentDifficulty)))
    ensures !IsCrushingIt(profile, result) && IsStruggling(result) ==>
      && u.consecutivePerfect == Some(0)
      && (profile.consecutiveStruggle + 1 >= 2 ==>
            u.consecutiveStruggle == Some(0)
            && u.currentDifficulty == Some(Clamp(0.8, 5.0, profile.currentDifficulty * 0.90)))
      && (profile.consecutiveStruggle + 1 < 2 ==>
            u.consecutiveStruggle == Some(profile.consecutiveStruggle + 1)
            && u.currentDifficulty == Some(Clamp(0.8, 5.0, profile.currentDifficulty)))
    ensures !IsCrushingIt(profile, result) && !IsStruggling(result) ==>
      && u.consecutivePerfect == Some(0)
      && u.consecutiveStruggle == Some(0)
      && u.currentDifficulty == Some(Clamp(0.8, 5.0,
           if result.accuracy >= 0.9 && result.avgTimeMs < profile.speedBaselineMs
           then profile.currentDifficulty * 1.01 else profile.currentDifficulty))
  {
    var consecutivePerfect := profile.consecutivePerfect;
    var consecutiveStruggle := profile.consecutiveStruggle;
    var currentDifficulty := profile.currentDifficulty;
    var isCrushingIt := IsCrushingIt(profile, result);
    var isStruggling := IsStruggling(result);
    if isCrushingIt {
      consecutivePerfect := consecutivePerfect + 1;
      consecutiveStruggle := 0;
      if consecutivePerfect >= 5 {
        currentDifficulty := currentDifficulty * 1.08;
        consecutivePerfect := 0;
      }
    } else if isStruggling {
      consecutiveStruggle := consecutiveStruggle + 1;
      consecutivePerfect := 0;
      if consecutiveStruggle >= 2 {
        currentDifficulty := currentDifficulty * 0.90;
        consecutiveStruggle := 0;
      }
    } else {
      consecutivePerfect := 0;
      consecutiveStruggle := 0;
      if result.accuracy >= 0.9 && result.avgTimeMs < profile.speedBaselineMs {
        currentDifficulty := currentDifficulty * 1.01;
      }
    }
    currentDifficulty := Clamp(0.8, 5.0, currentDifficulty);
    u := ProfileUpdate(None, Some(currentDifficulty), None, Some(consecutivePerfect), Some(consecutiveStruggle), None, None);
  }

  /** `updateSpeedBaseline`: 80% of the old baseline plus 20% of the new average, kept within [200, 3000]. */
  function UpdateSpeedBaseline(currentBaseline: real, recentAvgTimeMs: real): (b: real)
    ensures 200.0 <= b <= 3000.0
  {
    Clamp(200.0, 3000.0, currentBaseline * 0.8 + recentAvgTimeMs * 0.2)
  }

  /**
   * From a baseline within range the new baseline moves towards the
   * recent average and never past it; a recent average equal to the
   * baseline leaves it unchanged.
   */
  lemma SpeedBaselineMovesToward(currentBaseline: real, recentAvgTimeMs: real)
    requires 200.0 <= currentBaseline <= 3000.0
    ensures Min(currentBaseline, recentAvgTimeMs) <= UpdateSpeedBaseline(currentBaseline, recentAvgTimeMs)
      <= Max(currentBaseline, recentAvgTimeMs)
    ensures UpdateSpeedBaseline(currentBaseline, currentBaseline) == currentBaseline
  {
  }

  /** The total mastery score and the number of characters with at least three attempts. */
  function SkillTotals(mastery: seq<CharacterMasteryData>): (t: (real, nat))
    ensures t.1 <= |mastery|
  {
    if mastery == [] then (0.0, 0)
    else
      var previous := SkillTotals(mastery[..|mastery| - 1]);
      var last := mastery[|mastery| - 1];
      if last.correct + last.incorrect >= 3 then (previous.0 + last.masteryScore, previous.1 + 1)
      else previous
  }

  /** The overall skill: the average mastery score over characters with at least three attempts, else 0. */
  function OverallSkill(mastery: seq<CharacterMasteryData>): real
  {
    if |mastery| == 0 then 0.0
    else Ratio(SkillTotals(mastery).0, SkillTotals(mastery).1 as real)
  }

  /** `calculateOverallSkill`: sums the scores of the characters with enough attempts. */
  method CalculateOverallSkill(mastery: seq<CharacterMasteryData>) returns (skill: real)
    ensures skill == OverallSkill(mastery)
  {
    if |mastery| == 0 {
      return 0.0;
    }
    var totalScore := 0.0;
    var count := 0;
    var i := 0;
    while i < |mastery|
      invariant 0 <= i <= |mastery|
      invariant SkillTotals(mastery[..i]) == (totalScore, count)
    {
      assert mastery[..i + 1][..i] == mastery[..i];
      if mastery[i].correct + mastery[i].incorrect >= 3 {
        totalScore := totalScore + mastery[i].masteryScore;
        count := count + 1;
      }
      i := i + 1;
    }
    assert mastery[..i] == mastery;
    skill := if count > 0 then totalScore / count as real else 0.0;
  }

  /** Characters with fewer than three attempts do not count: with none qualifying the skill is 0. */
  lemma {:induction false} OverallSkillWithoutQualified(mastery: seq<CharacterMasteryData>)
    requires forall i :: 0 <= i < |mastery| ==> mastery[i].correct + mastery[i].incorrect < 3
    ensures SkillTotals(mastery).1 == 0
    ensures OverallSkill(mastery) == 0.0
  {
    if mastery != [] {
      OverallSkillWithoutQualified(mastery[..|mastery| - 1]);
    }
  }

  lemma {:induction false} SkillTotalsWithin(mastery: seq<CharacterMasteryData>)
    requires forall i :: 0 <= i < |mastery| ==> 0.0 <= mastery[i].masteryScore <= 1.0
    ensures 0.0 <= SkillTotals(mastery).0 <= SkillTotals(mastery).1 as real
  {
    if mastery != [] {
      SkillTotalsWithin(mastery[..|mastery| - 1]);
    }
  }

  /** Scores in [0, 1] give an overall skill in [0, 1]. */
  lemma OverallSkillWithin(mastery: seq<CharacterMasteryData>)
    requires forall i :: 0 <= i < |mastery| ==> 0.0 <= mastery[i].masteryScore <= 1.0
    ensures 0.0 <= OverallSkill(mastery) <= 1.0
  {
    SkillTotalsWithin(mastery);
  }
}
