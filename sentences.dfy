/**
 * The built-in practice corpus and the original sentence selector: twenty
 * sentences graded on a 1 to 5 difficulty scale, and a pick among the three
 * sentences closest to the learner's target difficulty.
 */
module Sentences {
  import opened Options
  import Sorting
  import opened Numbers

  /** A word of a sentence: what is shown, its hiragana reading, and whether it needs a hint. */
  datatype SentenceToken = SentenceToken(surface: string, reading: string, isKanji: bool)

  /** A practice sentence with its difficulty (1 to 5) and optional JLPT level. */
  datatype Sentence = Sentence(id: string, tokens: seq<SentenceToken>, difficulty: real, jlpt: Option<string>)

  /** The static corpus, in source order. */
  const Corpus: seq<Sentence> := [
    Sentence("1", [
        SentenceToken("あ", "あ", false),
        SentenceToken("い", "い", false),
        SentenceToken("う", "う", false),
        SentenceToken("え", "え", false),
        SentenceToken("お", "お", false)
      ], 1.0, None),
    Sentence("2", [
        SentenceToken("か", "か", false),
        SentenceToken("き", "き", false),
        SentenceToken("く", "く", false),
        SentenceToken("け", "け", false),
        SentenceToken("こ", "こ", false)
      ], 1.0, None),
    Sentence("3", [
        SentenceToken("さ", "さ", false),
        SentenceToken("し", "し", false),
        SentenceToken("す", "す", false),
        SentenceToken("せ", "せ", false),
        SentenceToken("そ", "そ", false)
      ], 1.0, None),
    Sentence("4", [
        SentenceToken("た", "た", false),
        SentenceToken("ち", "ち", false),
        SentenceToken("つ", "つ", false),
        SentenceToken("て", "て", false),
        SentenceToken("と", "と", false)
      ], 1.0, None),
    Sentence("5", [
        SentenceToken("な", "な", false),
        SentenceToken("に", "に", false),
        SentenceToken("ぬ", "ぬ", false),
        SentenceToken("ね", "ね", false),
        SentenceToken("の", "の", false)
      ], 1.0, None),
    Sentence("6", [
        SentenceToken("こ", "こ", false),
        SentenceToken("ん", "ん", false),
        SentenceToken("に", "に", false),
        SentenceToken("ち", "ち", false),
        SentenceToken("は", "は", false)
      ], 1.0, None),
    Sentence("7", [
        SentenceToken("あ", "あ", false),
        SentenceToken("り", "り", false),
        SentenceToken("が", "が", false),
        SentenceToken("と", "と", false),
        SentenceToken("う", "う", false)
      ], 1.0, None),
    Sentence("8", [
        SentenceToken("お", "お", false),
        SentenceToken("は", "は", false),
        SentenceToken("よ", "よ", false),
        SentenceToken("う", "う", false)
      ], 1.0, None),
    Sentence("9", [
        SentenceToken("ア", "ア", false),
        SentenceToken("イ", "イ", false),
        SentenceToken("ウ", "ウ", false),
        SentenceToken("エ", "エ", false),
        SentenceToken("オ", "オ", false)
      ], 1.5, None),
    Sentence("10", [
        SentenceToken("コ", "コ", false),
        SentenceToken("ー", "ー", false),
        SentenceToken("ヒ", "ヒ", false),
        SentenceToken("ー", "ー", false)
      ], 1.5, None),
    Sentence("11", [
        SentenceToken("今日", "きょう", true),
        SentenceToken("は", "は", false),
        SentenceToken("いい", "いい", false),
        SentenceToken("天気", "てんき", true),
        SentenceToken("です", "です", false),
        SentenceToken("。", "。", false)
      ], 2.0, Some("N5")),
    Sentence("12", [
        SentenceToken("私", "わたし", true),
        SentenceToken("は", "は", false),
        SentenceToken("学生", "がくせい", true),
        SentenceToken("です", "です", false),
        SentenceToken("。", "。", false)
      ], 2.0, Some("N5")),
    Sentence("13", [
        SentenceToken("日本語", "にほんご", true),
        SentenceToken("を", "を", false),
        SentenceToken("勉強", "べんきょう", true),
        SentenceToken("し", "し", false),
        SentenceToken("て", "て", false),
        SentenceToken("います", "います", false),
        SentenceToken("。", "。", false)
      ], 2.5, Some("N5")),
    Sentence("14", [
        SentenceToken("お", "お", false),
        SentenceToken("名前", "なまえ", true),
        SentenceToken("は", "は", false),
        SentenceToken("何", "なん", true),
        SentenceToken("です", "です", false),
        SentenceToken("か", "か", false),
        SentenceToken("？", "？", false)
      ], 2.0, Some("N5")),
    Sentence("15", [
        SentenceToken("これ", "これ", false),
        SentenceToken("は", "は", false),
        SentenceToken("本", "ほん", true),
        SentenceToken("です", "です", false),
        SentenceToken("。", "。", false)
      ], 2.0, Some("N5")),
    Sentence("16", [
        SentenceToken("明日", "あした", true),
        SentenceToken("は", "は", false),
        SentenceToken("学校", "がっこう", true),
        SentenceToken("に", "に", false),
        SentenceToken("行", "い", true),
        SentenceToken("きます", "きます", false),
        SentenceToken("。", "。", false)
      ], 2.5, Some("N5")),
    Sentence("17", [
        SentenceToken("毎日", "まいにち", true),
        SentenceToken("日本語", "にほんご", true),
        SentenceToken("を", "を", false),
        SentenceToken("練習", "れんしゅう", true),
        SentenceToken("し", "し", false),
        SentenceToken("ます", "ます", false),
        SentenceToken("。", "。", false)
      ], 3.0, Some("N5")),
    Sentence("18", [
        SentenceToken("食", "た", true),
        SentenceToken("べ", "べ", false),
        SentenceToken("物", "もの", true),
        SentenceToken("が", "が", false),
        SentenceToken("好", "す", true),
        SentenceToken("き", "き", false),
        SentenceToken("です", "です", false),
        SentenceToken("。", "。", false)
      ], 2.5, Some("N5")),
    Sentence("19", [
        SentenceToken("電車", "でんしゃ", true),
        SentenceToken("で", "で", false),
        SentenceToken("会社", "かいしゃ", true),
        SentenceToken("に", "に", false),
        SentenceToken("行", "い", true),
        SentenceToken("きます", "きます", false),
        SentenceToken("。", "。", false)
      ], 3.0, Some("N5")),
    Sentence("20", [
        SentenceToken("どこ", "どこ", false),
        SentenceToken("に", "に", false),
        SentenceToken("住", "す", true),
        SentenceToken("んで", "んで", false),
        SentenceToken("います", "います", false),
        SentenceToken("か", "か", false),
        SentenceToken("？", "？", false)
      ], 2.5, Some("N5"))
  ]

  /** Every corpus entry lies on the documented 1 to 5 difficulty scale. */
  lemma CorpusDifficultyInScale()
    ensures forall i :: 0 <= i < |Corpus| ==> 1.0 <= Corpus[i].difficulty <= 5.0
  {
  }

  /** The learner's target difficulty: mastery 0 to 1 maps linearly onto 1 to 5. */
  function TargetDifficulty(mastery: real): (t: real)
    ensures 0.0 <= mastery <= 1.0 ==> 1.0 <= t <= 5.0
    ensures t == 1.0 <==> mastery == 0.0
    ensures t == 5.0 <==> mastery == 1.0
  {
    1.0 + mastery * 4.0
  }

  /** The sentences whose id is not among the recent ones, in their original order. */
  function WithoutRecent(s: seq<Sentence>, recentIds: seq<string>): (r: seq<Sentence>)
    ensures forall x :: x in r <==> x in s && x.id !in recentIds
    ensures |r| <= |s|
  {
    if s == [] then []
    else if s[0].id in recentIds then WithoutRecent(s[1..], recentIds)
    else [s[0]] + WithoutRecent(s[1..], recentIds)
  }

  /** The distance of a sentence's difficulty from the target, the sort key of the selector. */
  function Distance(target: real): Sentence -> real
  {
    (x: Sentence) => Abs(x.difficulty - target)
  }

  /**
   * The selector over a corpus: with every sentence recent it falls back to
   * the first one; otherwise it returns a non-recent sentence, and fewer
   * than three non-recent sentences are strictly closer to the target than
   * it.
   */
  function SelectFrom(corpus: seq<Sentence>, mastery: real, recentIds: seq<string>, roll: real): (r: Sentence)
    requires |corpus| > 0
    requires 0.0 <= roll < 1.0
    ensures r in corpus
    ensures (forall x :: x in corpus ==> x.id in recentIds) ==> r == corpus[0]
    ensures (exists x :: x in corpus && x.id !in recentIds) ==>
      && r.id !in recentIds
      && var target := TargetDifficulty(mastery);
         Sorting.CountBelow(WithoutRecent(corpus, recentIds), Distance(target), Distance(target)(r)) < 3
  {
    var target := TargetDifficulty(mastery);
    var available := WithoutRecent(corpus, recentIds);
    if |available| == 0 then
      corpus[0]
    else
      var sorted := Sorting.SortBy(available, Distance(target));
      var n := if |sorted| < 3 then |sorted| else 3;
      var k := PickIndex(roll, n);
      Sorting.SortByMembers(available, Distance(target), sorted[k]);
      Sorting.SortBySorted(available, Distance(target));
      Sorting.CountBelowSorted(sorted, Distance(target), k);
      Sorting.CountBelowSortBy(available, Distance(target), Distance(target)(sorted[k]));
      sorted[..n][k]
  }

  /** `selectSentence`: the selector over the built-in corpus. */
  function SelectSentence(mastery: real, recentIds: seq<string>, roll: real): (r: Sentence)
    requires 0.0 <= roll < 1.0
    ensures r in Corpus
    ensures (forall x :: x in Corpus ==> x.id in recentIds) ==> r == Corpus[0]
    ensures (exists x :: x in Corpus && x.id !in recentIds) ==>
      && r.id !in recentIds
      && var target := TargetDifficulty(mastery);
         Sorting.CountBelow(WithoutRecent(Corpus, recentIds), Distance(target), Distance(target)(r)) < 3
  {
    SelectFrom(Corpus, mastery, recentIds, roll)
  }
}
