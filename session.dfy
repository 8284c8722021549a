/**
 * The practice session store: the session's counters and streaks, the
 * timing of the current sentence and token, and the end-of-sentence
 * processing that turns the sentence's per-character timings into mastery
 * updates and a profile update.
 *
 * The store is a class whose fields are the store's state; the database
 * it writes to is a `Db.Database`. Clock readings and the ids the database
 * hands out (`now`, the session id, the history row id) are parameters.
 */
module Session {
  import opened Options
  import opened Numbers
  import opened Db
  import Adaptive

  /** One recorded attempt, kept until the sentence is complete. */
  datatype CharTiming = CharTiming(character: string, timeMs: int, correct: bool, hintUsed: bool)

  /** Every field of the store, as one value. */
  datatype SessionState = SessionState(
    active: bool,
    sessionId: Option<int>,
    totalChars: nat,
    correctChars: nat,
    currentStreak: nat,
    maxStreak: nat,
    currentSentenceId: Option<string>,
    currentSentenceHistoryId: Option<int>,
    sentenceStartTime: Option<int>,
    tokenStartTime: Option<int>,
    currentTokenHintUsed: bool,
    sentenceChars: nat,
    sentenceCorrectChars: nat,
    sentenceHintsUsed: nat,
    sentenceTotalTimeMs: int,
    sentenceHadErrors: bool,
    charTimings: seq<CharTiming>)

  /** The number of correct attempts among the timings. */
  function CorrectTimings(timings: seq<CharTiming>): (n: nat)
    ensures n <= |timings|
  {
    if timings == [] then 0
    else CorrectTimings(timings[..|timings| - 1]) + Bit(timings[|timings| - 1].correct)
  }

  // ------------------------------------------------------------------
  // Per-character processing of a completed sentence
  // ------------------------------------------------------------------

  /** The stats an attempt starts from: the existing entry, or a fresh one averaging the attempt's own time. */
  function StartingStats(existing: Option<CharacterMasteryData>, timing: CharTiming): (s: CharacterMasteryData)
    ensures existing.Some? ==> s == existing.value
    ensures existing.None? ==>
      && s.character == timing.character
      && s.correct == 0 && s.incorrect == 0 && s.accuracy == 0.0
      && s.avgTimeMs == timing.timeMs as real
      && s.hintRate == 0.0 && s.masteryScore == 0.0 && s.level == New
      && s.lastSeen == None && s.nextReview == None && s.recentTimes == []
  {
    if existing.Some? then existing.value
    else CharacterMasteryData(timing.character, 0, 0, 0.0, timing.timeMs as real, 0.0, 0.0, New, None, None, [])
  }

  /**
   * The stats with one more attempt: one more correct or incorrect answer,
   * the accuracy over all answers, the recent window of at most ten times
   * ending with this one, and the average moved halfway to this time (or
   * set to it when there was none).
   */
  function UpdatedStats(stats: CharacterMasteryData, timing: CharTiming): (s: CharacterMasteryData)
    ensures s.correct == stats.correct + Bit(timing.correct)
    ensures s.incorrect == stats.incorrect + Bit(!timing.correct)
    ensures 0.0 <= s.accuracy <= 1.0
    ensures s.recentTimes == RecentWindow(stats.recentTimes, timing.timeMs)
    ensures stats.avgTimeMs > 0.0 ==>
      Min(stats.avgTimeMs, timing.timeMs as real) <= s.avgTimeMs <= Max(stats.avgTimeMs, timing.timeMs as real)
    ensures stats.avgTimeMs <= 0.0 ==> s.avgTimeMs == timing.timeMs as real
    ensures s.character == stats.character && s.hintRate == stats.hintRate && s.lastSeen == stats.lastSeen
  {
    var newCorrect := stats.correct + Bit(timing.correct);
    var newIncorrect := stats.incorrect + Bit(!timing.correct);
    var newTotal := newCorrect + newIncorrect;
    stats.(
      correct := newCorrect,
      incorrect := newIncorrect,
      accuracy := Ratio(newCorrect as real, newTotal as real),
      recentTimes := RecentWindow(stats.recentTimes, timing.timeMs),
      avgTimeMs := if stats.avgTimeMs > 0.0 then (stats.avgTimeMs + timing.timeMs as real) / 2.0 else timing.timeMs as real)
  }

  /** The updated accuracy is the share of correct answers among all of them. */
  lemma UpdatedStatsAccuracy(stats: CharacterMasteryData, timing: CharTiming)
    ensures var s := UpdatedStats(stats, timing);
      s.accuracy * (s.correct + s.incorrect) as real == s.correct as real
  {
    var s := UpdatedStats(stats, timing);
    assert (s.correct + s.incorrect) as real > 0.0;
  }

  /** The review grade of an attempt: correct without a hint is good, with a hint ok, wrong is bad. */
  function PerformanceOf(timing: CharTiming): (p: Adaptive.Performance)
    ensures p == Adaptive.Good <==> timing.correct && !timing.hintUsed
    ensures p == Adaptive.Ok <==> timing.correct && timing.hintUsed
    ensures p == Adaptive.Bad <==> !timing.correct
  {
    if timing.correct then (if timing.hintUsed then Adaptive.Ok else Adaptive.Good) else Adaptive.Bad
  }

  /**
   * The mastery update written for one attempt, given the character's entry
   * in the mastery read before the sentence's updates (if any): the new score
   * and level come from the starting stats with this attempt added, the hint
   * always counts as shown, and the next review is scheduled from the new
   * level and the attempt's grade.
   */
  function AttemptUpdate(timing: CharTiming, existing: Option<CharacterMasteryData>, speedBaselineMs: real, now: int,
                         root: real -> real): (u: MasteryUpdate)
    requires Adaptive.NonNegativeRoot(root)
    ensures u.correct == timing.correct && u.timeMs == timing.timeMs && u.hintUsed == timing.hintUsed && u.hintShown
    ensures var stats := StartingStats(existing, timing);
      u.masteryScore == Adaptive.MasteryScore(UpdatedStats(stats, timing), speedBaselineMs, now, root)
    ensures var stats := StartingStats(existing, timing);
      u.level == Adaptive.MasteryLevel(u.masteryScore, stats.correct + stats.incorrect + 1)
    ensures var stats := StartingStats(existing, timing);
      u.level == New <==> stats.correct + stats.incorrect + 1 < 3
    ensures u.nextReviewAt.Some? && now + Adaptive.Minute <= u.nextReviewAt.value <= now + 3 * Adaptive.Day
    ensures u.nextReviewAt.value - now
      == Adaptive.ReviewInterval(u.level, PerformanceOf(timing))
  {
    var stats := StartingStats(existing, timing);
    // the new total of answers is one more than the stats' own
    var score := Adaptive.MasteryScore(UpdatedStats(stats, timing), speedBaselineMs, now, root);
    var level := Adaptive.MasteryLevel(score, stats.correct + stats.incorrect + 1);
    var next := Adaptive.ScheduleNextReview(level, PerformanceOf(timing), now);
    MasteryUpdate(timing.correct, timing.timeMs, timing.hintUsed, true, score, level, Some(next))
  }

  /** The mastery updates of the attempts, each computed from the same snapshot. */
  function AttemptUpdates(timings: seq<CharTiming>, mastery: seq<CharacterMasteryData>, speedBaselineMs: real,
                          now: int, root: real -> real): (us: seq<MasteryUpdate>)
    requires Adaptive.NonNegativeRoot(root)
    ensures |us| == |timings|
    ensures forall k :: 0 <= k < |timings| ==>
      us[k] == AttemptUpdate(timings[k], Lookup(mastery, timings[k].character), speedBaselineMs, now, root)
  {
    seq(|timings|, k requires 0 <= k < |timings| =>
      AttemptUpdate(timings[k], Lookup(mastery, timings[k].character), speedBaselineMs, now, root))
  }

  /**
   * The `progress` table and rowid counter after upserting the first `n`
   * attempts in order, the `k`-th with `updates[k]`.
   */
  function UpsertAll(records: seq<ProgressRecord>, nextId: int, timings: seq<CharTiming>,
                     updates: seq<MasteryUpdate>, n: nat, now: int): (r: (seq<ProgressRecord>, int))
    requires n <= |timings| && n <= |updates|
  {
    if n == 0 then (records, nextId)
    else
      var previous := UpsertAll(records, nextId, timings, updates, n - 1, now);
      var character := timings[n - 1].character;
      (Upsert(previous.0, character, updates[n - 1], now, previous.1),
       NextRowIdAfter(previous.0, character, previous.1))
  }

  /** The `progress` table and rowid counter after upserting all the attempts. */
  function ApplyAttempts(records: seq<ProgressRecord>, nextId: int, timings: seq<CharTiming>,
                         mastery: seq<CharacterMasteryData>, speedBaselineMs: real, now: int,
                         root: real -> real): (r: (seq<ProgressRecord>, int))
    requires Adaptive.NonNegativeRoot(root)
  {
    UpsertAll(records, nextId, timings, AttemptUpdates(timings, mastery, speedBaselineMs, now, root), |timings|, now)
  }

  /** The answers recorded in the table: correct plus incorrect over all rows. */
  function TotalAnswers(records: seq<ProgressRecord>): nat
  {
    if records == [] then 0
    else TotalAnswers(records[..|records| - 1]) + records[|records| - 1].correct + records[|records| - 1].incorrect
  }

  /** The correct answers recorded in the table. */
  function TotalCorrect(records: seq<ProgressRecord>): nat
  {
    if records == [] then 0
    else TotalCorrect(records[..|records| - 1]) + records[|records| - 1].correct
  }

  lemma {:induction false} TotalsOfUpdate(records: seq<ProgressRecord>, i: nat, row: ProgressRecord)
    requires i < |records|
    ensures TotalAnswers(records[i := row]) + records[i].correct + records[i].incorrect
      == TotalAnswers(records) + row.correct + row.incorrect
    ensures TotalCorrect(records[i := row]) + records[i].correct == TotalCorrect(records) + row.correct
  {
    var n := |records| - 1;
    if i < n {
      assert records[i := row][..n] == records[..n][i := row];
      TotalsOfUpdate(records[..n], i, row);
    } else {
      assert records[i := row][..n] == records[..n];
    }
  }

  lemma TotalsOfUpsert(records: seq<ProgressRecord>, character: string, u: MasteryUpdate, now: int, newId: int)
    ensures TotalAnswers(Upsert(records, character, u, now, newId)) == TotalAnswers(records) + 1
    ensures TotalCorrect(Upsert(records, character, u, now, newId)) == TotalCorrect(records) + Bit(u.correct)
  {
    var r := Upsert(records, character, u, now, newId);
    match IndexOf(records, character)
    case None =>
      assert r[..|records|] == records;
    case Some(i) =>
      assert r == records[i := r[i]];
      TotalsOfUpdate(records, i, r[i]);
  }

  /**
   * Completing a sentence records each of its attempts exactly once: the
   * table gains one answer per timing, and one correct answer per correct
   * timing. The table keeps at most one row per character.
   */
  lemma ApplyAttemptsCounts(records: seq<ProgressRecord>, nextId: int, timings: seq<CharTiming>,
                            mastery: seq<CharacterMasteryData>, speedBaselineMs: real, now: int,
                            root: real -> real)
    requires Adaptive.NonNegativeRoot(root)
    ensures var r := ApplyAttempts(records, nextId, timings, mastery, speedBaselineMs, now, root).0;
      && TotalAnswers(r) == TotalAnswers(records) + |timings|
      && TotalCorrect(r) == TotalCorrect(records) + CorrectTimings(timings)
    ensures UniqueCharacters(records) ==>
      UniqueCharacters(ApplyAttempts(records, nextId, timings, mastery, speedBaselineMs, now, root).0)
  {
    var updates := AttemptUpdates(timings, mastery, speedBaselineMs, now, root);
    forall k | 0 <= k < |timings|
      ensures updates[k].correct == timings[k].correct
    {
      AttemptUpdateKeepsAnswer(timings[k], Lookup(mastery, timings[k].character), speedBaselineMs, now, root);
    }
    UpsertAllTotals(records, nextId, timings, updates, |timings|, now);
    assert timings[..|timings|] == timings;
    if UniqueCharacters(records) {
      UpsertAllUnique(records, nextId, timings, updates, |timings|, now);
    }
  }

  lemma AttemptUpdateKeepsAnswer(timing: CharTiming, existing: Option<CharacterMasteryData>, speedBaselineMs: real,
                                 now: int, root: real -> real)
    requires Adaptive.NonNegativeRoot(root)
    ensures AttemptUpdate(timing, existing, speedBaselineMs, now, root).correct == timing.correct
  {
  }

  lemma {:induction false} UpsertAllTotals(records: seq<ProgressRecord>, nextId: int, timings: seq<CharTiming>,
                                           updates: seq<MasteryUpdate>, n: nat, now: int)
    requires n <= |timings| && n <= |updates|
    requires forall k :: 0 <= k < n ==> updates[k].correct == timings[k].correct
    ensures var r := UpsertAll(records, nextId, timings, updates, n, now).0;
      && TotalAnswers(r) == TotalAnswers(records) + n
      && TotalCorrect(r) == TotalCorrect(records) + CorrectTimings(timings[..n])
  {
    if n == 0 {
      assert timings[..n] == [];
    } else {
      UpsertAllTotals(records, nextId, timings, updates, n - 1, now);
      var previous := UpsertAll(records, nextId, timings, updates, n - 1, now);
      TotalsOfUpsert(previous.0, timings[n - 1].character, updates[n - 1], now, previous.1);
      assert timings[..n][..n - 1] == timings[..n - 1];
    }
  }

  lemma {:induction false} UpsertAllUnique(records: seq<ProgressRecord>, nextId: int, timings: seq<CharTiming>,
                                           updates: seq<MasteryUpdate>, n: nat, now: int)
    requires n <= |timings| && n <= |updates|
    requires UniqueCharacters(records)
    ensures UniqueCharacters(UpsertAll(records, nextId, timings, updates, n, now).0)
    decreases n, 1
  {
    if n > 0 {
      UpsertAllUniqueStep(records, nextId, timings, updates, n - 1, now);
    }
  }

  /** One more upsert keeps the table at one row per character. */
  lemma {:induction false} UpsertAllUniqueStep(records: seq<ProgressRecord>, nextId: int, timings: seq<CharTiming>,
                                               updates: seq<MasteryUpdate>, m: nat, now: int)
    requires m < |timings| && m < |updates|
    requires UniqueCharacters(records)
    ensures UniqueCharacters(UpsertAll(records, nextId, timings, updates, m + 1, now).0)
    decreases m + 1, 0
  {
    UpsertAllUnique(records, nextId, timings, updates, m, now);
    var previous := UpsertAll(records, nextId, timings, updates, m, now);
    UpsertKeepsUnique(previous.0, timings[m].character, updates[m], now, previous.1);
  }

  /** The profile `getUserProfile` returns: the stored row, or the defaults it creates. */
  function ProfileOrDefault(profile: Option<UserProfile>, now: int): (p: UserProfile)
    ensures profile.Some? ==> p == profile.value
    ensures profile.None? ==> p == DefaultProfile(now)
  {
    if profile.Some? then profile.value else DefaultProfile(now)
  }

  /**
   * Writes the attempts to the table in order, each through
   * `updateCharacterMastery`, with every update computed from the same
   * mastery snapshot.
   */
  method WriteAttempts(db: Database, timings: seq<CharTiming>, mastery: seq<CharacterMasteryData>,
                       speedBaselineMs: real, now: int, root: real -> real)
    requires db.Valid() && Adaptive.NonNegativeRoot(root)
    modifies db
    ensures db.Valid()
    ensures (db.progress, db.nextRowId)
      == ApplyAttempts(old(db.progress), old(db.nextRowId), timings, mastery, speedBaselineMs, now, root)
    ensures db.profile == old(db.profile) && db.activity == old(db.activity)
  {
    ghost var records, nextId := db.progress, db.nextRowId;
    ghost var updates := AttemptUpdates(timings, mastery, speedBaselineMs, now, root);
    var i := 0;
    while i < |timings|
      invariant 0 <= i <= |timings|
      invariant db.Valid()
      invariant (db.progress, db.nextRowId) == UpsertAll(records, nextId, timings, updates, i, now)
      invariant db.profile == old(db.profile) && db.activity == old(db.activity)
    {
      WriteAttempt(db, records, nextId, timings, updates, i, mastery, speedBaselineMs, now, root);
      i := i + 1;
    }
  }

  /** One step of `WriteAttempts`: the upsert of the `i`-th attempt. */
  method WriteAttempt(db: Database, ghost records: seq<ProgressRecord>, ghost nextId: int, timings: seq<CharTiming>,
                      ghost updates: seq<MasteryUpdate>, i: nat,
                      mastery: seq<CharacterMasteryData>, speedBaselineMs: real, now: int, root: real -> real)
    requires db.Valid() && Adaptive.NonNegativeRoot(root) && i < |timings|
    requires updates == AttemptUpdates(timings, mastery, speedBaselineMs, now, root)
    requires (db.progress, db.nextRowId) == UpsertAll(records, nextId, timings, updates, i, now)
    modifies db
    ensures db.Valid()
    ensures (db.progress, db.nextRowId) == UpsertAll(records, nextId, timings, updates, i + 1, now)
    ensures db.profile == old(db.profile) && db.activity == old(db.activity)
  {
    var existing := Lookup(mastery, timings[i].character);
    var u := AttemptUpdate(timings[i], existing, speedBaselineMs, now, root);
    assert u == updates[i];
    db.UpdateCharacterMastery(timings[i].character, u, now);
  }

  /**
   * The profile update that ends `completeSentence`: the difficulty and
   * streaks adjusted to the sentence's result, the speed baseline moved
   * toward its average time, the overall skill of the updated table, and
   * the sentence's time and characters added to the totals.
   */
  method RecordSentenceInProfile(db: Database, profile: UserProfile, r: Adaptive.SentenceResult, now: int)
    requires db.Valid() && db.profile == Some(profile)
    modifies db
    ensures db.Valid()
    ensures db.progress == old(db.progress) && db.nextRowId == old(db.nextRowId) && db.activity == old(db.activity)
    ensures db.profile.Some?
    ensures db.profile.value.totalPracticeMs == profile.totalPracticeMs + r.totalTimeMs
    ensures db.profile.value.charsTypedTotal == profile.charsTypedTotal + r.totalChars
    ensures db.profile.value.speedBaselineMs == Adaptive.UpdateSpeedBaseline(profile.speedBaselineMs, r.avgTimeMs)
    ensures db.profile.value.overallSkill == Adaptive.OverallSkill(MasteryOf(db.progress))
    ensures 0.8 <= db.profile.value.currentDifficulty <= 5.0
  {
    var difficultyUpdates := Adaptive.AdjustDifficulty(profile, r);
    var newSpeedBaseline := Adaptive.UpdateSpeedBaseline(profile.speedBaselineMs, r.avgTimeMs);
    var updatedMasteryMap := db.AllCharacterMastery();
    var overallSkill := Adaptive.CalculateOverallSkill(updatedMasteryMap);
    db.UpdateUserProfile(ProfileUpdate(
      Some(overallSkill),
      difficultyUpdates.currentDifficulty,
      Some(newSpeedBaseline),
      difficultyUpdates.consecutivePerfect,
      difficultyUpdates.consecutiveStruggle,
      Some(profile.totalPracticeMs + r.totalTimeMs),
      Some(profile.charsTypedTotal + r.totalChars)), now);
  }

  // ------------------------------------------------------------------
  // The store
  // ------------------------------------------------------------------

  /** The state a store starts with, and returns to when a session starts (with the session's id). */
  function Fresh(active: bool, sessionId: Option<int>): (s: SessionState)
    ensures s.active == active && s.sessionId == sessionId
    ensures s.totalChars == 0 && s.correctChars == 0 && s.currentStreak == 0 && s.maxStreak == 0
    ensures s.currentSentenceId.None? && s.sentenceStartTime.None? && s.tokenStartTime.None?
    ensures s.sentenceChars == 0 && s.charTimings == []
  {
    SessionState(active, sessionId, 0, 0, 0, 0, None, None, None, None, false, 0, 0, 0, 0, false, [])
  }

  /**
   * The counters agree: no more correct answers than answers, in the
   * session and in the sentence; the best streak is at least the current
   * one; the kept timings are among the sentence's answers.
   */
  ghost predicate Consistent(s: SessionState)
  {
    && s.correctChars <= s.totalChars
    && s.currentStreak <= s.maxStreak
    && s.sentenceCorrectChars <= s.sentenceChars
    && |s.charTimings| <= s.sentenceChars
  }

  /** Whether the store is inside a started session. */
  predicate InSession(s: SessionState)
  {
    s.active && s.sessionId.Some?
  }

  /** The state after one attempt of `recordAttemptWithTiming` inside a session, taking `timeMs`. */
  function AfterAttempt(s: SessionState, character: string, correct: bool, timeMs: int): (t: SessionState)
    ensures Consistent(s) ==> Consistent(t)
    ensures t.totalChars == s.totalChars + 1 && t.sentenceChars == s.sentenceChars + 1
    ensures t.correctChars == s.correctChars + Bit(correct)
    ensures t.sentenceCorrectChars == s.sentenceCorrectChars + Bit(correct)
    ensures correct ==> t.currentStreak == s.currentStreak + 1 && t.sentenceHadErrors == s.sentenceHadErrors
    ensures !correct ==> t.currentStreak == 0 && t.sentenceHadErrors
    ensures t.maxStreak >= s.maxStreak && t.maxStreak >= t.currentStreak
    ensures t.maxStreak == s.maxStreak || t.maxStreak == t.currentStreak
    ensures t.sentenceTotalTimeMs == s.sentenceTotalTimeMs + timeMs
    ensures t.charTimings == s.charTimings + [CharTiming(character, timeMs, correct, s.currentTokenHintUsed)]
    ensures !t.currentTokenHintUsed && t.tokenStartTime.None?
    ensures t.active == s.active && t.sessionId == s.sessionId && t.currentSentenceId == s.currentSentenceId
  {
    var streak := if correct then s.currentStreak + 1 else 0;
    s.(
      totalChars := s.totalChars + 1,
      sentenceChars := s.sentenceChars + 1,
      correctChars := s.correctChars + Bit(correct),
      sentenceCorrectChars := s.sentenceCorrectChars + Bit(correct),
      currentStreak := streak,
      maxStreak := if streak > s.maxStreak then streak else s.maxStreak,
      sentenceHadErrors := s.sentenceHadErrors || !correct,
      sentenceTotalTimeMs := s.sentenceTotalTimeMs + timeMs,
      charTimings := s.charTimings + [CharTiming(character, timeMs, correct, s.currentTokenHintUsed)],
      currentTokenHintUsed := false,
      tokenStartTime := None)
  }

  class SessionStore {
    /** The store's fields. */
    var state: SessionState
    /** The database the store writes to. */
    const db: Database

    ghost predicate Valid()
      reads this, db
    {
      db.Valid() && Consistent(state)
    }

    /** The store's initial state. */
    constructor (db: Database)
      requires db.Valid()
      ensures Valid() && this.db == db
      ensures state == Fresh(false, None)
    {
      this.db := db;
      state := Fresh(false, None);
    }

    /** `startSession`, with the id the `sessions` insert returned: an active session with every counter reset. */
    method StartSession(id: int)
      requires Valid()
      modifies this
      ensures Valid()
      ensures state == Fresh(true, Some(id))
    {
      state := Fresh(true, Some(id));
    }

    /**
     * `setSentenceStart`, with the clock and the id of the history row
     * recorded for the sentence: outside an active session nothing changes;
     * otherwise the sentence's counters and timings start afresh.
     */
    method SetSentenceStart(sentenceId: string, historyId: int, now: int)
      requires Valid()
      modifies this
      ensures Valid()
      ensures !InSession(old(state)) ==> state == old(state)
      ensures InSession(old(state)) ==>
        state == old(state).(
          currentSentenceId := Some(sentenceId),
          currentSentenceHistoryId := Some(historyId),
          sentenceStartTime := Some(now),
          tokenStartTime := None,
          currentTokenHintUsed := false,
          sentenceChars := 0,
          sentenceCorrectChars := 0,
          sentenceHintsUsed := 0,
          sentenceTotalTimeMs := 0,
          sentenceHadErrors := false,
          charTimings := [])
    {
      if !state.active || state.sessionId.None? {
        return;
      }
      state := state.(
        currentSentenceId := Some(sentenceId),
        sentenceStartTime := Some(now),
        tokenStartTime := None,
        currentTokenHintUsed := false,
        sentenceChars := 0,
        sentenceCorrectChars := 0,
        sentenceHintsUsed := 0,
        sentenceTotalTimeMs := 0,
        sentenceHadErrors := false,
        charTimings := []);
      state := state.(currentSentenceHistoryId := Some(historyId));
    }

    /** `prepareTokenStart`: the next keystroke starts the token's clock. */
    method PrepareTokenStart()
      requires Valid()
      modifies this
      ensures Valid()
      ensures state == old(state).(tokenStartTime := None)
    {
      state := state.(tokenStartTime := None);
    }

    /** `setTokenStart`: starts the token's clock unless it is already running. */
    method SetTokenStart(now: int)
      requires Valid()
      modifies this
      ensures Valid()
      ensures old(state).tokenStartTime.None? ==> state == old(state).(tokenStartTime := Some(now))
      ensures old(state).tokenStartTime.Some? ==> state == old(state)
    {
      if state.tokenStartTime.None? {
        state := state.(tokenStartTime := Some(now));
      }
    }

    /** `markHintUsed`: the sentence's hint count rises once per token, however often the hint is shown. */
    method MarkHintUsed()
      requires Valid()
      modifies this
      ensures Valid()
      ensures state.currentTokenHintUsed
      ensures state == old(state).(
        currentTokenHintUsed := true,
        sentenceHintsUsed := old(state).sentenceHintsUsed + if old(state).currentTokenHintUsed then 0 else 1)
    {
      if !state.currentTokenHintUsed {
        state := state.(currentTokenHintUsed := true, sentenceHintsUsed := state.sentenceHintsUsed + 1);
      }
    }

    /**
     * `recordAttemptWithTiming`: outside an active session nothing changes
     * and the time is 0. Otherwise the time is the time since the token's
     * start (0 when the clock was not started), and the state is the one
     * `AfterAttempt` describes.
     */
    method RecordAttemptWithTiming(character: string, correct: bool, now: int) returns (timeMs: int)
      requires Valid()
      modifies this
      ensures Valid()
      ensures !InSession(old(state)) ==> timeMs == 0 && state == old(state)
      ensures InSession(old(state)) ==>
        && timeMs == (if old(state).tokenStartTime.Some? && old(state).tokenStartTime.value != 0
                      then now - old(state).tokenStartTime.value else 0)
        && state == AfterAttempt(old(state), character, correct, timeMs)
    {
      if !state.active || state.sessionId.None? {
        return 0;
      }
      timeMs := if state.tokenStartTime.Some? && state.tokenStartTime.value != 0
        then now - state.tokenStartTime.value else 0;
      var s := state.(totalChars := state.totalChars + 1, sentenceChars := state.sentenceChars + 1);
      if correct {
        s := s.(correctChars := s.correctChars + 1, sentenceCorrectChars := s.sentenceCorrectChars + 1,
                currentStreak := s.currentStreak + 1);
        if s.currentStreak > s.maxStreak {
          s := s.(maxStreak := s.currentStreak);
        }
      } else {
        s := s.(currentStreak := 0, sentenceHadErrors := true);
      }
      s := s.(sentenceTotalTimeMs := s.sentenceTotalTimeMs + timeMs,
              charTimings := s.charTimings + [CharTiming(character, timeMs, correct, s.currentTokenHintUsed)]);
      state := s.(currentTokenHintUsed := false, tokenStartTime := None);
    }

    /**
     * `completeSentence`: without an active session and a current
     * sentence, nothing happens. Otherwise every kept timing becomes a
     * mastery upsert computed from the mastery read at the start, the
     * profile gets the adjusted difficulty and streaks, the new speed
     * baseline, the overall skill of the updated table, and the sentence's
     * time and characters added to its totals; the sentence state is
     * cleared and the sentence's result returned.
     */
    method CompleteSentence(now: int, root: real -> real) returns (result: Option<Adaptive.SentenceResult>)
      requires Valid() && Adaptive.NonNegativeRoot(root)
      modifies this, db
      ensures Valid()
      ensures result.None? <==>
        !InSession(old(state)) || old(state).currentSentenceId.None? || old(state).currentSentenceId.value == []
      ensures result.None? ==>
        && state == old(state)
        && db.progress == old(db.progress) && db.nextRowId == old(db.nextRowId)
        && db.profile == old(db.profile) && db.activity == old(db.activity)
      ensures result.Some? ==>
        var s, r := old(state), result.value;
        && r.sentenceId == s.currentSentenceId.value
        && r.accuracy == Ratio(s.sentenceCorrectChars as real, s.sentenceChars as real)
        && 0.0 <= r.accuracy <= 1.0
        && r.avgTimeMs == Ratio(s.sentenceTotalTimeMs as real, |s.charTimings| as real)
        && r.totalTimeMs == s.sentenceTotalTimeMs
        && r.hintsUsed == s.sentenceHintsUsed
        && r.totalChars == s.sentenceChars
        && r.correctChars == s.sentenceCorrectChars
        && r.hadErrors == s.sentenceHadErrors
      ensures result.Some? ==>
        var p := ProfileOrDefault(old(db.profile), now);
        && db.progress == ApplyAttempts(old(db.progress), old(db.nextRowId), old(state).charTimings,
             MasteryOf(old(db.progress)), p.speedBaselineMs, now, root).0
        && db.profile.Some?
        && db.profile.value.totalPracticeMs == p.totalPracticeMs + old(state).sentenceTotalTimeMs
        && db.profile.value.charsTypedTotal == p.charsTypedTotal + old(state).sentenceChars
        && db.profile.value.speedBaselineMs == Adaptive.UpdateSpeedBaseline(p.speedBaselineMs, result.value.avgTimeMs)
        && db.profile.value.overallSkill == Adaptive.OverallSkill(MasteryOf(db.progress))
        && 0.8 <= db.profile.value.currentDifficulty <= 5.0
        && db.activity == old(db.activity)
      ensures result.Some? ==>
        state == old(state).(
          currentSentenceId := None,
          currentSentenceHistoryId := None,
          sentenceStartTime := None,
          charTimings := [])
    {
      var s := state;
      if !s.active || s.sessionId.None? || s.currentSentenceId.None? || s.currentSentenceId.value == [] {
        return None;
      }
      var accuracy := if s.sentenceChars > 0 then s.sentenceCorrectChars as real / s.sentenceChars as real else 0.0;
      var avgTimeMs := if |s.charTimings| > 0 then s.sentenceTotalTimeMs as real / |s.charTimings| as real else 0.0;
      assert accuracy == Ratio(s.sentenceCorrectChars as real, s.sentenceChars as real);

      var profile := db.GetUserProfile(now);
      var masteryMap := db.AllCharacterMastery();
      WriteAttempts(db, s.charTimings, masteryMap, profile.speedBaselineMs, now, root);

      var r := Adaptive.SentenceResult(s.currentSentenceId.value, accuracy, avgTimeMs, s.sentenceTotalTimeMs,
        s.sentenceHintsUsed, s.sentenceChars, s.sentenceCorrectChars, s.sentenceHadErrors);
      RecordSentenceInProfile(db, profile, r, now);

      state := s.(currentSentenceId := None, currentSentenceHistoryId := None, sentenceStartTime := None,
                  charTimings := []);
      result := Some(r);
    }

    /** `endSession`: an active session becomes inactive and loses its id; otherwise nothing changes. */
    method EndSession()
      requires Valid()
      modifies this
      ensures Valid()
      ensures !InSession(old(state)) ==> state == old(state)
      ensures InSession(old(state)) ==> state == old(state).(active := false, sessionId := None)
    {
      if !state.active || state.sessionId.None? {
        return;
      }
      state := state.(active := false, sessionId := None);
    }
  }
}
