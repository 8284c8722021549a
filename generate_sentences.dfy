/**
 * The filters of the offline sentence generator: which characters count as
 * kanji, which corpus sentences are worth keeping, and the rough difficulty
 * a kept sentence is given from its length and its kanji tokens.
 *
 * The generator's lengths are JavaScript string lengths, which count UTF-16
 * code units: a character outside the Basic Multilingual Plane (an emoji, a
 * kanji of CJK Extension B) counts twice. The character tests never match
 * such a character, since each of their ranges lies inside the plane.
 */
module GenerateSentences {
  import opened Numbers
  import opened Sentences
  import Adaptive

  /** The shortest and the longest sentence kept, in characters. */
  const MinLength := 3
  const MaxLength := 30

  /** The most punctuation marks a kept sentence may have. */
  const MaxPunctuation := 4

  /** A CJK unified ideograph, U+4E00 to U+9FAF. */
  predicate IsKanji(c: char)
  {
    '\U{4E00}' <= c <= '\U{9FAF}'
  }

  /** A Japanese character: hiragana, katakana, the CJK symbols in between, or kanji (U+3040 to U+9FAF). */
  predicate IsJapanese(c: char)
  {
    '\U{3040}' <= c <= '\U{9FAF}'
  }

  /** An ASCII letter or digit. */
  predicate IsAsciiAlphanumeric(c: char)
  {
    ('a' <= c <= 'z') || ('A' <= c <= 'Z') || ('0' <= c <= '9')
  }

  /** The punctuation the generator counts: 。、！？「」『』（）. */
  predicate IsCountedPunctuation(c: char)
  {
    match c
    case '\U{3002}' | '\U{3001}' | '\U{FF01}' | '\U{FF1F}' | '\U{300C}' | '\U{300D}'
       | '\U{300E}' | '\U{300F}' | '\U{FF08}' | '\U{FF09}' => true
    case _ => false
  }

  /** The number of UTF-16 code units that encode `c`. */
  function Utf16Width(c: char): nat
  {
    if c as int > 0xFFFF then 2 else 1
  }

  /** JavaScript's `length` of a string: its UTF-16 code units. */
  function Utf16Length(s: string): (n: nat)
    ensures |s| <= n <= 2 * |s|
    ensures n == |s| <==> forall i :: 0 <= i < |s| ==> s[i] as int <= 0xFFFF
  {
    if s == [] then 0
    else Utf16Width(s[0]) + Utf16Length(s[1..])
  }

  /** The length of a concatenation is the sum of the lengths. */
  lemma {:induction false} Utf16LengthAppend(s: string, t: string)
    ensures Utf16Length(s + t) == Utf16Length(s) + Utf16Length(t)
  {
    if s == [] {
      assert s + t == t;
    } else {
      assert (s + t)[1..] == s[1..] + t;
      Utf16LengthAppend(s[1..], t);
    }
  }

  /**
   * Twenty-nine kana and one emoji are thirty characters, yet thirty-one
   * UTF-16 units: the generator rejects the sentence as too long.
   */
  lemma EmojiCountsTwice()
    ensures var s := seq(29, i => 'あ') + ['\U{1F600}'];
      |s| == 30 && Utf16Length(s) == 31 && !IsGoodSentence(s)
  {
    var kana := seq(29, i => 'あ');
    assert forall i :: 0 <= i < |kana| ==> kana[i] as int <= 0xFFFF;
    Utf16LengthAppend(kana, ['\U{1F600}']);
  }

  /** `containsKanji`: whether some character of the text is a kanji. */
  function ContainsKanji(s: string): (b: bool)
    ensures b <==> exists i :: 0 <= i < |s| && IsKanji(s[i])
  {
    if s == [] then false
    else IsKanji(s[0]) || ContainsKanji(s[1..])
  }

  /** Whether some character of the text is Japanese. */
  function ContainsJapanese(s: string): (b: bool)
    ensures b <==> exists i :: 0 <= i < |s| && IsJapanese(s[i])
  {
    if s == [] then false
    else IsJapanese(s[0]) || ContainsJapanese(s[1..])
  }

  /** Whether some character of the text is an ASCII letter or digit. */
  function ContainsAsciiAlphanumeric(s: string): (b: bool)
    ensures b <==> exists i :: 0 <= i < |s| && IsAsciiAlphanumeric(s[i])
  {
    if s == [] then false
    else IsAsciiAlphanumeric(s[0]) || ContainsAsciiAlphanumeric(s[1..])
  }

  /** The number of counted punctuation marks in the text. */
  function PunctuationCount(s: string): (n: nat)
    ensures n <= |s|
    ensures n == 0 <==> forall i :: 0 <= i < |s| ==> !IsCountedPunctuation(s[i])
  {
    if s == [] then 0
    else (if IsCountedPunctuation(s[0]) then 1 else 0) + PunctuationCount(s[1..])
  }

  /**
   * `isGoodSentence`: a kept sentence is 3 to 30 UTF-16 units long, has a
   * Japanese character, has no ASCII letter or digit, and has at most four
   * counted punctuation marks.
   */
  function IsGoodSentence(s: string): (b: bool)
    ensures b ==> MinLength <= Utf16Length(s) <= MaxLength
    ensures b ==> exists i :: 0 <= i < |s| && IsJapanese(s[i])
    ensures b ==> forall i :: 0 <= i < |s| ==> !IsAsciiAlphanumeric(s[i])
    ensures b ==> PunctuationCount(s) <= MaxPunctuation
    ensures MinLength <= Utf16Length(s) <= MaxLength && (exists i :: 0 <= i < |s| && IsJapanese(s[i]))
      && (forall i :: 0 <= i < |s| ==> !IsAsciiAlphanumeric(s[i])) && PunctuationCount(s) <= MaxPunctuation
      ==> b
  {
    if Utf16Length(s) < MinLength || Utf16Length(s) > MaxLength then false
    else if !ContainsJapanese(s) then false
    else if ContainsAsciiAlphanumeric(s) then false
    else PunctuationCount(s) <= MaxPunctuation
  }

  /**
   * `estimateDifficulty`: 1, plus 0.5 for a sentence over 15 UTF-16 units and
   * 0.5 more over 25, plus 0.3 per kanji token, capped to the range 1 to 5.
   */
  function EstimateDifficulty(sentence: string, tokens: seq<SentenceToken>): (d: real)
    ensures 1.0 <= d <= 5.0
    ensures Utf16Length(sentence) <= 15 && Adaptive.CountKanjiTokens(tokens) == 0 ==> d == 1.0
    ensures Adaptive.CountKanjiTokens(tokens) >= 14 ==> d == 5.0
  {
    var units := Utf16Length(sentence);
    var length := (if units > 15 then 0.5 else 0.0) + (if units > 25 then 0.5 else 0.0);
    Clamp(1.0, 5.0, 1.0 + length + 0.3 * Adaptive.CountKanjiTokens(tokens) as real)
  }

  /** Every kanji is a Japanese character, so a text with a kanji passes the Japanese test. */
  lemma KanjiIsJapanese(s: string)
    requires ContainsKanji(s)
    ensures ContainsJapanese(s)
  {
    var i :| 0 <= i < |s| && IsKanji(s[i]);
    assert IsJapanese(s[i]);
  }

  /** The punctuation of a concatenation is the punctuation of its parts. */
  lemma {:induction false} PunctuationCountAppend(s: string, t: string)
    ensures PunctuationCount(s + t) == PunctuationCount(s) + PunctuationCount(t)
  {
    if s == [] {
      assert s + t == t;
    } else {
      assert (s + t)[1..] == s[1..] + t;
      PunctuationCountAppend(s[1..], t);
    }
  }

  /** Dropping the last character of a kept sentence keeps it, as long as the rest is long enough and has a Japanese character. */
  lemma {:induction false} GoodSentenceDropLast(s: string)
    requires IsGoodSentence(s) && |s| > 0 && Utf16Length(s[..|s| - 1]) >= MinLength
    requires exists i :: 0 <= i < |s| - 1 && IsJapanese(s[i])
    ensures IsGoodSentence(s[..|s| - 1])
  {
    var t := s[..|s| - 1];
    assert s == t + [s[|s| - 1]];
    Utf16LengthAppend(t, [s[|s| - 1]]);
    PunctuationCountAppend(t, [s[|s| - 1]]);
    var i :| 0 <= i < |s| - 1 && IsJapanese(s[i]);
    assert IsJapanese(t[i]);
  }

  /** A longer sentence and more kanji tokens never make a sentence easier. */
  lemma EstimateDifficultyMonotone(s1: string, t1: seq<SentenceToken>, s2: string, t2: seq<SentenceToken>)
    requires Utf16Length(s1) <= Utf16Length(s2)
    requires Adaptive.CountKanjiTokens(t1) <= Adaptive.CountKanjiTokens(t2)
    ensures EstimateDifficulty(s1, t1) <= EstimateDifficulty(s2, t2)
  {
  }

  /** Each kanji token adds 0.3 until the cap: one more kanji token raises an uncapped estimate by exactly 0.3. */
  lemma EstimateDifficultyKanjiStep(s: string, t: seq<SentenceToken>, k: SentenceToken)
    requires k.isKanji
    requires EstimateDifficulty(s, t) + 0.3 <= 5.0
    ensures EstimateDifficulty(s, t + [k]) == EstimateDifficulty(s, t) + 0.3
  {
    var u := t + [k];
    assert u[..|u| - 1] == t;
  }
}
