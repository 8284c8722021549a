/**
 * The persistence layer as an in-memory database: the `progress` table of
 * per-character statistics, the singleton `user_profile` row and the
 * `daily_activity` table, with the reads and upserts the learning engine
 * and the session store issue against them.
 */
module Db {
  import opened Options
  import opened Numbers
  import Sorting

  /** The four mastery levels of a character. */
  datatype Level = New | Learning | Reviewing | Mastered

  /** One row of the `progress` table. `recentTimes` is the decoded JSON array. */
  datatype ProgressRecord = ProgressRecord(
    id: int,
    character: string,
    correct: nat,
    incorrect: nat,
    lastSeen: Option<int>,
    mastery: real,
    hintShown: nat,
    hintUsed: nat,
    totalTimeMs: int,
    attemptCount: nat,
    bestTimeMs: Option<int>,
    recentTimes: seq<int>,
    masteryScore: real,
    level: Level,
    nextReviewAt: Option<int>)

  /** The derived per-character view the engine works with. */
  datatype CharacterMasteryData = CharacterMasteryData(
    character: string,
    correct: nat,
    incorrect: nat,
    accuracy: real,
    avgTimeMs: real,
    hintRate: real,
    masteryScore: real,
    level: Level,
    lastSeen: Option<int>,
    nextReview: Option<int>,
    recentTimes: seq<int>)

  /** The singleton `user_profile` row. */
  datatype UserProfile = UserProfile(
    id: int,
    overallSkill: real,
    currentDifficulty: real,
    speedBaselineMs: real,
    consecutivePerfect: nat,
    consecutiveStruggle: nat,
    totalPracticeMs: int,
    charsTypedTotal: int,
    createdAt: int,
    updatedAt: int)

  /** A partial profile update: `None` is a field left undefined. */
  datatype ProfileUpdate = ProfileUpdate(
    overallSkill: Option<real>,
    currentDifficulty: Option<real>,
    speedBaselineMs: Option<real>,
    consecutivePerfect: Option<nat>,
    consecutiveStruggle: Option<nat>,
    totalPracticeMs: Option<int>,
    charsTypedTotal: Option<int>)

  /** The data of one attempt handed to the mastery upsert. */
  datatype MasteryUpdate = MasteryUpdate(
    correct: bool,
    timeMs: int,
    hintUsed: bool,
    hintShown: bool,
    masteryScore: real,
    level: Level,
    nextReviewAt: Option<int>)

  /** One row of `daily_activity`; dates are day numbers. */
  datatype DailyActivity = DailyActivity(date: int, sentencesCompleted: nat, firstSentenceAt: int)

  /** SQL's `? 1 : 0` for a boolean parameter. */
  function Bit(b: bool): nat
  {
    if b then 1 else 0
  }

  // ------------------------------------------------------------------
  // Record to mastery data
  // ------------------------------------------------------------------

  /**
   * The derived view of a row: accuracy over all attempts, average time per
   * timed attempt and hint rate per shown hint, each 0 when its divisor is 0.
   */
  function ToMasteryData(record: ProgressRecord): (m: CharacterMasteryData)
    ensures m.character == record.character
    ensures m.correct == record.correct && m.incorrect == record.incorrect
    ensures 0.0 <= m.accuracy <= 1.0
    ensures m.masteryScore == record.masteryScore && m.level == record.level
    ensures m.lastSeen == record.lastSeen && m.nextReview == record.nextReviewAt
    ensures m.recentTimes == record.recentTimes
  {
    var total := record.correct + record.incorrect;
    CharacterMasteryData(
      record.character,
      record.correct,
      record.incorrect,
      Ratio(record.correct as real, total as real),
      Ratio(record.totalTimeMs as real, record.attemptCount as real),
      Ratio(record.hintUsed as real, record.hintShown as real),
      record.masteryScore,
      record.level,
      record.lastSeen,
      record.nextReviewAt,
      record.recentTimes)
  }

  /**
   * The rates of the mastery view: the accuracy is correct over answered,
   * the average time is total time over attempts, and the hint rate is hints
   * used over hints shown, each 0 when its denominator is 0.
   */
  lemma MasteryDataRates(record: ProgressRecord)
    ensures var m := ToMasteryData(record);
      && (record.correct + record.incorrect > 0 ==>
            m.accuracy * (record.correct + record.incorrect) as real == record.correct as real)
      && (record.correct + record.incorrect == 0 ==> m.accuracy == 0.0)
      && (record.attemptCount > 0 ==> m.avgTimeMs * record.attemptCount as real == record.totalTimeMs as real)
      && (record.attemptCount == 0 ==> m.avgTimeMs == 0.0)
      && (record.hintShown > 0 ==> m.hintRate * record.hintShown as real == record.hintUsed as real)
      && (record.hintShown == 0 ==> m.hintRate == 0.0)
      && (record.hintUsed <= record.hintShown ==> 0.0 <= m.hintRate <= 1.0)
  {
  }

  /** The derived view of every row, in table order. */
  function MasteryOf(records: seq<ProgressRecord>): (m: seq<CharacterMasteryData>)
    ensures |m| == |records|
    ensures forall i :: 0 <= i < |records| ==> m[i] == ToMasteryData(records[i])
  {
    if records == [] then [] else [ToMasteryData(records[0])] + MasteryOf(records[1..])
  }

  /** `Map.get` on the mastery map: the entry for `character`, if any. */
  function Lookup(mastery: seq<CharacterMasteryData>, character: string): (r: Option<CharacterMasteryData>)
    ensures r.Some? ==> r.value in mastery && r.value.character == character
    ensures r.None? <==> forall i :: 0 <= i < |mastery| ==> mastery[i].character != character
  {
    if mastery == [] then None
    else if mastery[0].character == character then Some(mastery[0])
    else Lookup(mastery[1..], character)
  }

  // ------------------------------------------------------------------
  // The mastery upsert
  // ------------------------------------------------------------------

  /** The `UNIQUE` constraint on `progress.character`. */
  ghost predicate UniqueCharacters(records: seq<ProgressRecord>)
  {
    forall i, j :: 0 <= i < j < |records| ==> records[i].character != records[j].character
  }

  /** The position of the row for `character`, if there is one. */
  function IndexOf(records: seq<ProgressRecord>, character: string): (r: Option<nat>)
    ensures r.Some? ==> r.value < |records| && records[r.value].character == character
    ensures r.None? <==> forall i :: 0 <= i < |records| ==> records[i].character != character
  {
    if records == [] then None
    else if records[0].character == character then Some(0)
    else match IndexOf(records[1..], character)
      case None => None
      case Some(i) => Some(i + 1)
  }

  /** Whether `suffix` ends `s`. */
  predicate IsSuffix<T(==)>(suffix: seq<T>, s: seq<T>)
  {
    |suffix| <= |s| && suffix == s[|s| - |suffix|..]
  }

  /** The stored recent times after a new one: the last ten of the old ones and the new one. */
  function RecentWindow(times: seq<int>, timeMs: int): (w: seq<int>)
    ensures |w| == if |times| < 10 then |times| + 1 else 10
    ensures w[|w| - 1] == timeMs
    ensures IsSuffix(w, times + [timeMs])
  {
    var pushed := times + [timeMs];
    if |pushed| > 10 then pushed[|pushed| - 10..] else pushed
  }

  /** The best time after a new one: the smaller of the two, or the new one when there was none. */
  function BestTime(previous: Option<int>, timeMs: int): (b: int)
    ensures b <= timeMs
    ensures previous.Some? ==> b <= previous.value
    ensures b == timeMs || (previous.Some? && b == previous.value)
  {
    if previous.Some? && previous.value < timeMs then previous.value else timeMs
  }

  /**
   * The row the `INSERT` branch creates, with the recent times and best time
   * the statement is given as parameters.
   */
  function InsertedRow(id: int, character: string, u: MasteryUpdate, now: int, recentTimes: seq<int>, bestTime: int)
    : ProgressRecord
  {
    ProgressRecord(
      id, character, Bit(u.correct), Bit(!u.correct), Some(now), 0.0,
      Bit(u.hintShown), Bit(u.hintUsed), u.timeMs, 1, Some(bestTime),
      recentTimes, u.masteryScore, u.level, u.nextReviewAt)
  }

  /**
   * The row the `ON CONFLICT DO UPDATE` branch leaves, with the recent times
   * and best time the statement is given as parameters. The legacy
   * `mastery` column is computed from the row's old counts, as SQL
   * evaluates every `SET` expression against the old row.
   */
  function UpdatedRow(r: ProgressRecord, u: MasteryUpdate, now: int, recentTimes: seq<int>, bestTime: int)
    : ProgressRecord
  {
    r.(
      correct := r.correct + Bit(u.correct),
      incorrect := r.incorrect + Bit(!u.correct),
      lastSeen := Some(now),
      hintShown := r.hintShown + Bit(u.hintShown),
      hintUsed := r.hintUsed + Bit(u.hintUsed),
      totalTimeMs := r.totalTimeMs + u.timeMs,
      attemptCount := r.attemptCount + 1,
      bestTimeMs := Some(bestTime),
      recentTimes := recentTimes,
      masteryScore := u.masteryScore,
      level := u.level,
      nextReviewAt := u.nextReviewAt,
      mastery := (r.correct + Bit(u.correct)) as real / (r.correct + r.incorrect + 1) as real)
  }

  /** The row inserted for a character seen for the first time. */
  function InsertedRecord(id: int, character: string, u: MasteryUpdate, now: int): ProgressRecord
  {
    InsertedRow(id, character, u, now, RecentWindow([], u.timeMs), BestTime(None, u.timeMs))
  }

  /** The row an existing character's row becomes. */
  function UpdatedRecord(r: ProgressRecord, u: MasteryUpdate, now: int): ProgressRecord
  {
    UpdatedRow(r, u, now, RecentWindow(r.recentTimes, u.timeMs), BestTime(r.bestTimeMs, u.timeMs))
  }

  /**
   * The columns both branches of the upsert set from the attempt: the time
   * seen, the recent window and best time grown by this time, and the
   * engine's score, level and next review.
   */
  ghost predicate WritesAttempt(row: ProgressRecord, u: MasteryUpdate, now: int, oldTimes: seq<int>, oldBest: Option<int>)
  {
    && row.lastSeen == Some(now)
    && row.recentTimes == RecentWindow(oldTimes, u.timeMs)
    && row.bestTimeMs == Some(BestTime(oldBest, u.timeMs))
    && row.masteryScore == u.masteryScore && row.level == u.level && row.nextReviewAt == u.nextReviewAt
  }

  /**
   * A first row for `character`: the given id, one answer on the counter the
   * attempt's correctness picks, its hint flags, its time as the total, and a
   * legacy mastery of 0.
   */
  ghost predicate IsFirstRow(row: ProgressRecord, id: int, character: string, u: MasteryUpdate)
  {
    && row.id == id && row.character == character
    && row.correct == Bit(u.correct) && row.incorrect == Bit(!u.correct)
    && row.hintShown == Bit(u.hintShown) && row.hintUsed == Bit(u.hintUsed)
    && row.attemptCount == 1 && row.totalTimeMs == u.timeMs
    && row.mastery == 0.0
  }

  /**
   * `row` is `previous` with one more attempt: the same id and character, one
   * more answer on the counter the attempt's correctness picks, one more on
   * each hint counter it flags, and the added time. The legacy mastery
   * column is `UpdatedMasteryIsNewAccuracy`'s.
   */
  ghost predicate IsGrownRow(row: ProgressRecord, previous: ProgressRecord, u: MasteryUpdate)
  {
    && row.id == previous.id && row.character == previous.character
    && row.correct == previous.correct + Bit(u.correct)
    && row.incorrect == previous.incorrect + Bit(!u.correct)
    && row.hintShown == previous.hintShown + Bit(u.hintShown)
    && row.hintUsed == previous.hintUsed + Bit(u.hintUsed)
    && row.attemptCount == previous.attemptCount + 1
    && row.totalTimeMs == previous.totalTimeMs + u.timeMs
  }

  lemma InsertedRecordIsFirst(id: int, character: string, u: MasteryUpdate, now: int)
    ensures IsFirstRow(InsertedRecord(id, character, u, now), id, character, u)
  {
  }

  lemma UpdatedRecordIsGrown(r: ProgressRecord, u: MasteryUpdate, now: int)
    ensures IsGrownRow(UpdatedRecord(r, u, now), r, u)
  {
  }

  /**
   * The table after the upsert for `character`: a new character gets a fresh
   * row at the end; an existing row gains exactly one attempt; every other
   * row is unchanged.
   */
  function Upsert(records: seq<ProgressRecord>, character: string, u: MasteryUpdate, now: int, newId: int)
    : (r: seq<ProgressRecord>)
    ensures IndexOf(records, character).None? ==> |r| == |records| + 1 && r[..|records|] == records
    ensures IndexOf(records, character).None? ==> IsFirstRow(r[|records|], newId, character, u)
    ensures IndexOf(records, character).Some? ==>
      var i := IndexOf(records, character).value;
      && |r| == |records|
      && (forall j :: 0 <= j < |records| && j != i ==> r[j] == records[j])
    ensures IndexOf(records, character).Some? ==>
      var i := IndexOf(records, character).value;
      r[i].character == character && IsGrownRow(r[i], records[i], u)
  {
    match IndexOf(records, character)
    case None =>
      InsertedRecordIsFirst(newId, character, u, now);
      records + [InsertedRecord(newId, character, u, now)]
    case Some(i) =>
      UpdatedRecordIsGrown(records[i], u, now);
      records[i := UpdatedRecord(records[i], u, now)]
  }

  /**
   * Both branches of the upsert set the attempt's columns on the character's
   * row: the time seen, the recent window and best time grown by this
   * attempt's time, and the engine's score, level and next review.
   */
  lemma UpsertWritesAttempt(records: seq<ProgressRecord>, character: string, u: MasteryUpdate, now: int, newId: int)
    ensures var r := Upsert(records, character, u, now, newId);
      match IndexOf(records, character)
      case None => WritesAttempt(r[|records|], u, now, [], None)
      case Some(i) => WritesAttempt(r[i], u, now, records[i].recentTimes, records[i].bestTimeMs)
  {
  }

  /** The rowid counter after an upsert: it advances only when a row is inserted. */
  function NextRowIdAfter(records: seq<ProgressRecord>, character: string, nextId: int): (n: int)
    ensures n == nextId || n == nextId + 1
    ensures n == nextId + 1 <==> forall i :: 0 <= i < |records| ==> records[i].character != character
  {
    if IndexOf(records, character).None? then nextId + 1 else nextId
  }

  /** The upsert keeps at most one row per character. */
  lemma UpsertKeepsUnique(records: seq<ProgressRecord>, character: string, u: MasteryUpdate, now: int, newId: int)
    requires UniqueCharacters(records)
    ensures UniqueCharacters(Upsert(records, character, u, now, newId))
  {
  }

  /** On an existing row the legacy `mastery` column is the accuracy of the new counts. */
  lemma UpdatedMasteryIsNewAccuracy(r: ProgressRecord, u: MasteryUpdate, now: int)
    ensures var n := UpdatedRecord(r, u, now);
      n.mastery * (n.correct + n.incorrect) as real == n.correct as real
  {
  }

  /**
   * The bookkeeping a row keeps when every attempt shows its hint whenever it
   * uses it: one attempt per counted answer, no more hints used than shown,
   * at most ten recent times and a best time no slower than any of them.
   */
  ghost predicate ConsistentRecord(r: ProgressRecord)
  {
    && r.attemptCount == r.correct + r.incorrect
    && r.hintUsed <= r.hintShown
    && |r.recentTimes| <= 10
    && r.bestTimeMs.Some?
    && forall k :: 0 <= k < |r.recentTimes| ==> r.bestTimeMs.value <= r.recentTimes[k]
  }

  /** A first attempt that shows its hint whenever it uses it makes a consistent row. */
  lemma InsertedRecordConsistent(id: int, character: string, u: MasteryUpdate, now: int)
    requires u.hintUsed ==> u.hintShown
    ensures ConsistentRecord(InsertedRecord(id, character, u, now))
  {
  }

  /** One more such attempt keeps a row consistent. */
  lemma UpdatedRecordConsistent(r: ProgressRecord, u: MasteryUpdate, now: int)
    requires ConsistentRecord(r)
    requires u.hintUsed ==> u.hintShown
    ensures ConsistentRecord(UpdatedRecord(r, u, now))
  {
    var n := UpdatedRecord(r, u, now);
    var pushed := r.recentTimes + [u.timeMs];
    var offset := |pushed| - |n.recentTimes|;
    forall k | 0 <= k < |n.recentTimes|
      ensures n.bestTimeMs.value <= n.recentTimes[k]
    {
      assert n.recentTimes[k] == pushed[offset + k];
      if offset + k < |r.recentTimes| {
        assert pushed[offset + k] == r.recentTimes[offset + k];
      }
    }
  }

  /** The upsert keeps every row of the table consistent. */
  lemma UpsertKeepsConsistent(records: seq<ProgressRecord>, character: string, u: MasteryUpdate, now: int, newId: int)
    requires forall j :: 0 <= j < |records| ==> ConsistentRecord(records[j])
    requires u.hintUsed ==> u.hintShown
    ensures var r := Upsert(records, character, u, now, newId);
      forall j :: 0 <= j < |r| ==> ConsistentRecord(r[j])
  {
    match IndexOf(records, character)
    case None =>
      InsertedRecordConsistent(newId, character, u, now);
    case Some(i) =>
      UpdatedRecordConsistent(records[i], u, now);
  }

  // ------------------------------------------------------------------
  // The profile row
  // ------------------------------------------------------------------

  /** The row `INSERT OR IGNORE` creates, with the column defaults of the schema. */
  function DefaultProfile(now: int): (p: UserProfile)
    ensures p.id == 1 && p.createdAt == now && p.updatedAt == now
    ensures p.currentDifficulty == 1.0 && p.speedBaselineMs == 1000.0
  {
    UserProfile(1, 0.0, 1.0, 1000.0, 0, 0, 0, 0, now, now)
  }

  /**
   * The partial update: every present field is overwritten, every absent one
   * kept, `updated_at` is stamped and `id` and `created_at` never change.
   */
  function ApplyProfileUpdate(p: UserProfile, u: ProfileUpdate, now: int): (r: UserProfile)
    ensures r.id == p.id && r.createdAt == p.createdAt && r.updatedAt == now
    ensures r.overallSkill == u.overallSkill.GetOr(p.overallSkill)
    ensures r.currentDifficulty == u.currentDifficulty.GetOr(p.currentDifficulty)
    ensures r.speedBaselineMs == u.speedBaselineMs.GetOr(p.speedBaselineMs)
    ensures r.consecutivePerfect == u.consecutivePerfect.GetOr(p.consecutivePerfect)
    ensures r.consecutiveStruggle == u.consecutiveStruggle.GetOr(p.consecutiveStruggle)
    ensures r.totalPracticeMs == u.totalPracticeMs.GetOr(p.totalPracticeMs)
    ensures r.charsTypedTotal == u.charsTypedTotal.GetOr(p.charsTypedTotal)
  {
    UserProfile(
      p.id,
      u.overallSkill.GetOr(p.overallSkill),
      u.currentDifficulty.GetOr(p.currentDifficulty),
      u.speedBaselineMs.GetOr(p.speedBaselineMs),
      u.consecutivePerfect.GetOr(p.consecutivePerfect),
      u.consecutiveStruggle.GetOr(p.consecutiveStruggle),
      u.totalPracticeMs.GetOr(p.totalPracticeMs),
      u.charsTypedTotal.GetOr(p.charsTypedTotal),
      p.createdAt,
      now)
  }

  const EmptyUpdate := ProfileUpdate(None, None, None, None, None, None, None)

  /** An update with no fields only stamps `updated_at`; applying an update twice is applying it once. */
  lemma ProfileUpdateLaws(p: UserProfile, u: ProfileUpdate, now: int)
    ensures ApplyProfileUpdate(p, EmptyUpdate, now) == p.(updatedAt := now)
    ensures ApplyProfileUpdate(ApplyProfileUpdate(p, u, now), u, now) == ApplyProfileUpdate(p, u, now)
  {
  }

  // ------------------------------------------------------------------
  // Review queue and day streak
  // ------------------------------------------------------------------

  /** `next_review_at IS NOT NULL AND next_review_at <= now`. */
  predicate IsDue(r: ProgressRecord, now: int)
  {
    r.nextReviewAt.Some? && r.nextReviewAt.value <= now
  }

  /** The due rows, in table order. */
  function DueRecords(records: seq<ProgressRecord>, now: int): (r: seq<ProgressRecord>)
    ensures forall x :: x in r <==> x in records && IsDue(x, now)
    ensures |r| <= |records|
  {
    if records == [] then []
    else if IsDue(records[0], now) then [records[0]] + DueRecords(records[1..], now)
    else DueRecords(records[1..], now)
  }

  /** The `ORDER BY next_review_at` key. */
  function ReviewKey(r: ProgressRecord): real
  {
    r.nextReviewAt.GetOr(0) as real
  }

  /**
   * The due rows in ascending `next_review_at` order. SQL leaves the order
   * of ties open; the stable sort keeps them in table order.
   */
  function DueInOrder(records: seq<ProgressRecord>, now: int): seq<ProgressRecord>
  {
    Sorting.SortBy(DueRecords(records, now), ReviewKey)
  }

  /** The review query returns exactly the due rows, soonest first. */
  lemma DueInOrderCorrect(records: seq<ProgressRecord>, now: int)
    ensures forall x :: x in DueInOrder(records, now) <==> x in records && IsDue(x, now)
    ensures Sorting.SortedBy(DueInOrder(records, now), ReviewKey)
  {
    forall x
      ensures x in DueInOrder(records, now) <==> x in records && IsDue(x, now)
    {
      Sorting.SortByMembers(DueRecords(records, now), ReviewKey, x);
    }
    Sorting.SortBySorted(DueRecords(records, now), ReviewKey);
  }

  function DateOf(a: DailyActivity): int
  {
    a.date
  }

  /** A review list for the table: every entry due, soonest first, and every due row present. */
  ghost predicate DueView(due: seq<CharacterMasteryData>, records: seq<ProgressRecord>, now: int)
  {
    && (forall i :: 0 <= i < |due| ==> due[i].nextReview.Some? && due[i].nextReview.value <= now)
    && (forall i, j :: 0 <= i < j < |due| ==> due[i].nextReview.value <= due[j].nextReview.value)
    && (forall x :: x in records && IsDue(x, now) ==> ToMasteryData(x) in due)
  }

  lemma DueViewAllDue(records: seq<ProgressRecord>, now: int)
    ensures var due := MasteryOf(DueInOrder(records, now));
      forall i :: 0 <= i < |due| ==> due[i].nextReview.Some? && due[i].nextReview.value <= now
  {
    var rows := DueInOrder(records, now);
    DueInOrderCorrect(records, now);
    var due := MasteryOf(rows);
    forall i | 0 <= i < |due|
      ensures due[i].nextReview.Some? && due[i].nextReview.value <= now
    {
      assert rows[i] in rows;
    }
  }

  lemma DueViewOrdered(records: seq<ProgressRecord>, now: int)
    ensures var due := MasteryOf(DueInOrder(records, now));
      forall i, j :: 0 <= i < j < |due| ==>
        due[i].nextReview.Some? && due[j].nextReview.Some? && due[i].nextReview.value <= due[j].nextReview.value
  {
    var rows := DueInOrder(records, now);
    DueInOrderCorrect(records, now);
    DueViewAllDue(records, now);
    var due := MasteryOf(rows);
    forall i, j | 0 <= i < j < |due|
      ensures due[i].nextReview.Some? && due[j].nextReview.Some? && due[i].nextReview.value <= due[j].nextReview.value
    {
      assert rows[i] in rows && rows[j] in rows;
      assert ReviewKey(rows[i]) <= ReviewKey(rows[j]);
    }
  }

  lemma DueViewComplete(records: seq<ProgressRecord>, now: int)
    ensures var due := MasteryOf(DueInOrder(records, now));
      forall x :: x in records && IsDue(x, now) ==> ToMasteryData(x) in due
  {
    var rows := DueInOrder(records, now);
    DueInOrderCorrect(records, now);
    var due := MasteryOf(rows);
    forall x | x in records && IsDue(x, now)
      ensures ToMasteryData(x) in due
    {
      var i :| 0 <= i < |rows| && rows[i] == x;
      assert due[i] == ToMasteryData(x);
    }
  }

  /** The mastery view of the review query's rows: all due, soonest first, none missing. */
  lemma DueViewCorrect(records: seq<ProgressRecord>, now: int)
    ensures DueView(MasteryOf(DueInOrder(records, now)), records, now)
  {
    DueViewAllDue(records, now);
    DueViewOrdered(records, now);
    DueViewComplete(records, now);
  }

  /** Activity dates are the table's primary key. */
  ghost predicate UniqueDates(activity: seq<DailyActivity>)
  {
    Sorting.UniqueBy(activity, DateOf)
  }

  /** The dates of the activity table, as a set. */
  function DatesOf(activity: seq<DailyActivity>): (d: set<int>)
    ensures forall x :: x in d <==> exists i :: 0 <= i < |activity| && activity[i].date == x
  {
    set i | 0 <= i < |activity| :: activity[i].date
  }

  /** The `ORDER BY date DESC` key. */
  function DescendingDate(a: DailyActivity): real
  {
    -(a.date as real)
  }

  /** The activity rows newest first: the same dates, strictly decreasing. */
  lemma NewestFirst(activity: seq<DailyActivity>)
    requires UniqueDates(activity)
    ensures var dates := Sorting.SortBy(activity, DescendingDate);
      && DatesOf(dates) == DatesOf(activity)
      && (forall i, j :: 0 <= i < j < |dates| ==> dates[j].date < dates[i].date)
  {
    var dates := Sorting.SortBy(activity, DescendingDate);
    Sorting.SortBySorted(activity, DescendingDate);
    Sorting.SortByKeepsUnique(activity, DescendingDate, DateOf);
    forall x
      ensures x in DatesOf(dates) <==> x in DatesOf(activity)
    {
      if x in DatesOf(dates) {
        var k :| 0 <= k < |dates| && dates[k].date == x;
        Sorting.SortByMembers(activity, DescendingDate, dates[k]);
      }
      if x in DatesOf(activity) {
        var k :| 0 <= k < |activity| && activity[k].date == x;
        Sorting.SortByMembers(activity, DescendingDate, activity[k]);
      }
    }
    forall i, j | 0 <= i < j < |dates|
      ensures dates[j].date < dates[i].date
    {
      assert DescendingDate(dates[i]) <= DescendingDate(dates[j]);
      assert DateOf(dates[i]) != DateOf(dates[j]);
    }
  }

  /**
   * In strictly decreasing dates that start with `i` consecutive days, the
   * first of which is `latest`, and do not continue the run at position `i`,
   * the run is maximal: the day before it is absent.
   */
  lemma RunEndsAt(dates: seq<DailyActivity>, i: nat)
    requires 0 < i <= |dates|
    requires forall a, b :: 0 <= a < b < |dates| ==> dates[b].date < dates[a].date
    requires forall k :: 0 <= k < i ==> dates[k].date == dates[0].date - k
    requires i < |dates| ==> dates[i].date != dates[0].date - i
    ensures forall d :: dates[0].date - i < d <= dates[0].date ==> d in DatesOf(dates)
    ensures dates[0].date - i !in DatesOf(dates)
  {
    var latest := dates[0].date;
    forall d | latest - i < d <= latest
      ensures d in DatesOf(dates)
    {
      assert dates[latest - d].date == d;
    }
    forall k | 0 <= k < |dates|
      ensures dates[k].date != latest - i
    {
      if k >= i {
        assert dates[i].date < dates[i - 1].date;
        assert dates[k].date <= dates[i].date;
      }
    }
  }

  /**
   * The newest of strictly decreasing dates is today or yesterday exactly
   * when no date lies in the future and today or yesterday is active.
   */
  lemma LatestIsRecent(dates: seq<DailyActivity>, today: int)
    requires |dates| > 0
    requires forall a, b :: 0 <= a < b < |dates| ==> dates[b].date < dates[a].date
    ensures var latest := dates[0].date;
      var active := DatesOf(dates);
      && ((latest == today || latest == today - 1) <==>
           (forall d :: d in active ==> d <= today) && (today in active || today - 1 in active))
      && ((latest == today || latest == today - 1) ==>
           latest == if today in active then today else today - 1)
  {
    var latest := dates[0].date;
    assert latest in DatesOf(dates);
    assert forall d :: d in DatesOf(dates) ==> d <= latest;
  }

  class Database {
    /** The `progress` table, in rowid order. */
    var progress: seq<ProgressRecord>
    /** The rowid the next inserted `progress` row receives. */
    var nextRowId: int
    /** The `user_profile` table, which holds at most the row with id 1. */
    var profile: Option<UserProfile>
    /** The `daily_activity` table. */
    var activity: seq<DailyActivity>

    ghost predicate Valid()
      reads this
    {
      && UniqueCharacters(progress)
      && UniqueDates(activity)
      && (profile.Some? ==> profile.value.id == 1)
    }

    constructor ()
      ensures Valid()
      ensures progress == [] && profile == None && activity == []
    {
      progress := [];
      nextRowId := 1;
      profile := None;
      activity := [];
    }

    /** The mastery view of every row, in table order, as `getAllCharacterMastery` builds its map. */
    method AllCharacterMastery() returns (m: seq<CharacterMasteryData>)
      requires Valid()
      ensures m == MasteryOf(progress)
      ensures forall i, j :: 0 <= i < j < |m| ==> m[i].character != m[j].character
    {
      m := [];
      var i := 0;
      while i < |progress|
        invariant 0 <= i <= |progress|
        invariant |m| == i
        invariant forall k :: 0 <= k < i ==> m[k] == ToMasteryData(progress[k])
      {
        m := m + [ToMasteryData(progress[i])];
        i := i + 1;
      }
    }

    /**
     * Records one attempt for `character`: the recent-times window and best
     * time are computed from the existing row, then the row is inserted or
     * updated.
     */
    method UpdateCharacterMastery(character: string, u: MasteryUpdate, now: int)
      requires Valid()
      modifies this
      ensures Valid()
      ensures progress == Upsert(old(progress), character, u, now, old(nextRowId))
      ensures nextRowId == NextRowIdAfter(old(progress), character, old(nextRowId))
      ensures profile == old(profile) && activity == old(activity)
    {
      var existing := IndexOf(progress, character);
      var recentTimes: seq<int> := [];
      if existing.Some? {
        recentTimes := progress[existing.value].recentTimes;
      }
      ghost var previousTimes := recentTimes;
      recentTimes := recentTimes + [u.timeMs];
      if |recentTimes| > 10 {
        recentTimes := recentTimes[|recentTimes| - 10..];
      }
      assert recentTimes == RecentWindow(previousTimes, u.timeMs);
      var bestTime := u.timeMs;
      if existing.Some? && progress[existing.value].bestTimeMs.Some? {
        bestTime := if progress[existing.value].bestTimeMs.value < u.timeMs
          then progress[existing.value].bestTimeMs.value else u.timeMs;
      }
      assert existing.Some? ==> bestTime == BestTime(progress[existing.value].bestTimeMs, u.timeMs);
      UpsertKeepsUnique(progress, character, u, now, nextRowId);
      match existing
      case None =>
        progress := progress + [InsertedRow(nextRowId, character, u, now, recentTimes, bestTime)];
        nextRowId := nextRowId + 1;
      case Some(i) =>
        progress := progress[i := UpdatedRow(progress[i], u, now, recentTimes, bestTime)];
    }

    /** Creates the profile row with its defaults when it is missing, then reads it. */
    method GetUserProfile(now: int) returns (p: UserProfile)
      requires Valid()
      modifies this
      ensures Valid()
      ensures old(profile).Some? ==> p == old(profile).value
      ensures old(profile).None? ==> p == DefaultProfile(now)
      ensures profile == Some(p)
      ensures progress == old(progress) && activity == old(activity) && nextRowId == old(nextRowId)
    {
      if profile.None? {
        profile := Some(DefaultProfile(now));
      }
      p := profile.value;
    }

    /**
     * The partial update of the profile row, field by field; when the row
     * does not exist the `UPDATE` matches nothing and nothing changes.
     */
    method UpdateUserProfile(u: ProfileUpdate, now: int)
      requires Valid()
      modifies this
      ensures Valid()
      ensures old(profile).Some? ==> profile == Some(ApplyProfileUpdate(old(profile).value, u, now))
      ensures old(profile).None? ==> profile == None
      ensures progress == old(progress) && activity == old(activity) && nextRowId == old(nextRowId)
    {
      if profile.Some? {
        var p := profile.value.(updatedAt := now);
        if u.overallSkill.Some? {
          p := p.(overallSkill := u.overallSkill.value);
        }
        if u.currentDifficulty.Some? {
          p := p.(currentDifficulty := u.currentDifficulty.value);
        }
        if u.speedBaselineMs.Some? {
          p := p.(speedBaselineMs := u.speedBaselineMs.value);
        }
        if u.consecutivePerfect.Some? {
          p := p.(consecutivePerfect := u.consecutivePerfect.value);
        }
        if u.consecutiveStruggle.Some? {
          p := p.(consecutiveStruggle := u.consecutiveStruggle.value);
        }
        if u.totalPracticeMs.Some? {
          p := p.(totalPracticeMs := u.totalPracticeMs.value);
        }
        if u.charsTypedTotal.Some? {
          p := p.(charsTypedTotal := u.charsTypedTotal.value);
        }
        profile := Some(p);
      }
    }

    /** The characters due for review at `now`, soonest first, as mastery data. */
    function CharactersDueForReview(now: int): (due: seq<CharacterMasteryData>)
      reads this
      ensures |due| == |DueInOrder(progress, now)|
      ensures DueView(due, progress, now)
    {
      DueViewCorrect(progress, now);
      MasteryOf(DueInOrder(progress, now))
    }

    /** Records a completed sentence for `today`: a new activity row or one more on today's. */
    method RecordSentenceCompleted(today: int, now: int) returns (isFirstToday: bool)
      requires Valid()
      modifies this
      ensures Valid()
      ensures isFirstToday <==> today !in DatesOf(old(activity))
      ensures DatesOf(activity) == DatesOf(old(activity)) + {today}
      ensures isFirstToday ==> activity == old(activity) + [DailyActivity(today, 1, now)]
      ensures !isFirstToday ==>
        && |activity| == |old(activity)|
        && forall k :: 0 <= k < |activity| ==>
             activity[k] == if old(activity)[k].date == today
               then old(activity)[k].(sentencesCompleted := old(activity)[k].sentencesCompleted + 1)
               else old(activity)[k]
      ensures progress == old(progress) && profile == old(profile) && nextRowId == old(nextRowId)
    {
      var i := 0;
      while i < |activity| && activity[i].date != today
        invariant 0 <= i <= |activity|
        invariant forall k :: 0 <= k < i ==> activity[k].date != today
      {
        i := i + 1;
      }
      isFirstToday := i == |activity|;
      if isFirstToday {
        activity := activity + [DailyActivity(today, 1, now)];
        assert DatesOf(activity) == DatesOf(old(activity)) + {today} by {
          forall x ensures x in DatesOf(activity) <==> x in DatesOf(old(activity)) + {today} {
            if x in DatesOf(old(activity)) {
              var k :| 0 <= k < |old(activity)| && old(activity)[k].date == x;
              assert activity[k].date == x;
            }
            if x in DatesOf(activity) {
              var k :| 0 <= k < |activity| && activity[k].date == x;
              if k < |old(activity)| {
                assert old(activity)[k].date == x;
              }
            }
            if x == today {
              assert activity[|old(activity)|].date == today;
            }
          }
        }
      } else {
        var row := activity[i];
        activity := activity[i := row.(sentencesCompleted := row.sentencesCompleted + 1)];
        assert DatesOf(activity) == DatesOf(old(activity)) by {
          forall x ensures x in DatesOf(activity) <==> x in DatesOf(old(activity)) {
            if x in DatesOf(old(activity)) {
              var k :| 0 <= k < |old(activity)| && old(activity)[k].date == x;
              assert activity[k].date == x;
            }
          }
        }
      }
    }

    /**
     * The day streak: 0 without activity or when the latest active day is
     * neither today nor yesterday; otherwise the length of the run of
     * consecutive active days ending at the latest one.
     */
    method GetDayStreak(today: int) returns (streak: nat)
      requires Valid()
      ensures streak > 0 <==>
        && activity != []
        && (forall d :: d in DatesOf(activity) ==> d <= today)
        && (today in DatesOf(activity) || today - 1 in DatesOf(activity))
      ensures streak > 0 ==>
        var latest := if today in DatesOf(activity) then today else today - 1;
        && (forall d :: latest - streak < d <= latest ==> d in DatesOf(activity))
        && latest - streak !in DatesOf(activity)
    {
      var dates := Sorting.SortBy(activity, DescendingDate);
      NewestFirst(activity);
      if |dates| == 0 {
        return 0;
      }
      var latest := dates[0].date;
      LatestIsRecent(dates, today);
      if latest != today && latest != today - 1 {
        return 0;
      }
      streak := 0;
      var expected := latest;
      var i := 0;
      while i < |dates| && dates[i].date == expected
        invariant 0 <= i <= |dates|
        invariant streak == i && expected == latest - i
        invariant forall k :: 0 <= k < i ==> dates[k].date == latest - k
      {
        streak := streak + 1;
        expected := expected - 1;
        i := i + 1;
      }
      RunEndsAt(dates, i);
    }
  }
}
