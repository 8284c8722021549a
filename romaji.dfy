/**
 * The kana tokenizer and the per-keystroke romaji matcher
 * (src/lib/utils/romaji.ts).
 *
 * Katakana is folded to hiragana (two-character combinations first), the
 * folded text is split into tokens (two-character table entries first), and
 * `MatchRomaji` decides, for one token and the keystrokes typed so far,
 * whether the token is matched, still partial, or wrong.
 */
module Romaji {
  import opened Options

  // ------------------------------------------------------------------
  // Lookup tables
  // ------------------------------------------------------------------

  /**
   * The hiragana-to-romaji table, keyed by one or two characters: every
   * accepted spelling, canonical first.
   */
  function HiraganaRomaji(kana: string): (r: Option<seq<string>>)
    ensures r.Some? ==> 1 <= |kana| <= 2
    ensures r.Some? ==> |r.value| > 0 && forall s :: s in r.value ==> |s| > 0
  {
    if |kana| == 1 then HiraganaSingle(kana[0])
    else if |kana| == 2 then HiraganaPair(kana[0], kana[1])
    else None
  }

  /** The entries of the hiragana-to-romaji table with a one-character key. */
  function HiraganaSingle(c: char): Option<seq<string>>
  {
    match c
    case 'あ' => Some(["a"])
    case 'い' => Some(["i"])
    case 'う' => Some(["u"])
    case 'え' => Some(["e"])
    case 'お' => Some(["o"])
    case 'か' => Some(["ka"])
    case 'き' => Some(["ki"])
    case 'く' => Some(["ku"])
    case 'け' => Some(["ke"])
    case 'こ' => Some(["ko"])
    case 'さ' => Some(["sa"])
    case 'し' => Some(["si", "shi"])
    case 'す' => Some(["su"])
    case 'せ' => Some(["se"])
    case 'そ' => Some(["so"])
    case 'た' => Some(["ta"])
    case 'ち' => Some(["ti", "chi"])
    case 'つ' => Some(["tu", "tsu"])
    case 'て' => Some(["te"])
    case 'と' => Some(["to"])
    case 'な' => Some(["na"])
    case 'に' => Some(["ni"])
    case 'ぬ' => Some(["nu"])
    case 'ね' => Some(["ne"])
    case 'の' => Some(["no"])
    case 'は' => Some(["ha"])
    case 'ひ' => Some(["hi"])
    case 'ふ' => Some(["hu", "fu"])
    case 'へ' => Some(["he"])
    case 'ほ' => Some(["ho"])
    case 'ま' => Some(["ma"])
    case 'み' => Some(["mi"])
    case 'む' => Some(["mu"])
    case 'め' => Some(["me"])
    case 'も' => Some(["mo"])
    case 'や' => Some(["ya"])
    case 'ゆ' => Some(["yu"])
    case 'よ' => Some(["yo"])
    case 'ら' => Some(["ra"])
    case 'り' => Some(["ri"])
    case 'る' => Some(["ru"])
    case 'れ' => Some(["re"])
    case 'ろ' => Some(["ro"])
    case 'わ' => Some(["wa"])
    case 'を' => Some(["wo", "o"])
    case 'ん' => Some(["n", "nn"])
    case 'が' => Some(["ga"])
    case 'ぎ' => Some(["gi"])
    case 'ぐ' => Some(["gu"])
    case 'げ' => Some(["ge"])
    case 'ご' => Some(["go"])
    case 'ざ' => Some(["za"])
    case 'じ' => Some(["ji", "zi"])
    case 'ず' => Some(["zu"])
    case 'ぜ' => Some(["ze"])
    case 'ぞ' => Some(["zo"])
    case 'だ' => Some(["da"])
    case 'ぢ' => Some(["di", "ji"])
    case 'づ' => Some(["du", "zu"])
    case 'で' => Some(["de"])
    case 'ど' => Some(["do"])
    case 'ば' => Some(["ba"])
    case 'び' => Some(["bi"])
    case 'ぶ' => Some(["bu"])
    case 'べ' => Some(["be"])
    case 'ぼ' => Some(["bo"])
    case 'ぱ' => Some(["pa"])
    case 'ぴ' => Some(["pi"])
    case 'ぷ' => Some(["pu"])
    case 'ぺ' => Some(["pe"])
    case 'ぽ' => Some(["po"])
    case 'ゃ' => Some(["ya"])
    case 'ゅ' => Some(["yu"])
    case 'ょ' => Some(["yo"])
    case 'ぁ' => Some(["a"])
    case 'ぃ' => Some(["i"])
    case 'ぅ' => Some(["u"])
    case 'ぇ' => Some(["e"])
    case 'ぉ' => Some(["o"])
    case 'っ' => Some(["xtu", "xtsu"])
    case 'ー' => Some(["-"])
    case _ => None
  }

  /** The entries of the hiragana-to-romaji table with a two-character key. */
  function HiraganaPair(first: char, second: char): Option<seq<string>>
  {
    match (first, second)
    case ('き', 'ゃ') => Some(["kya"])
    case ('き', 'ゅ') => Some(["kyu"])
    case ('き', 'ょ') => Some(["kyo"])
    case ('し', 'ゃ') => Some(["sha", "sya"])
    case ('し', 'ゅ') => Some(["shu", "syu"])
    case ('し', 'ょ') => Some(["sho", "syo"])
    case ('ち', 'ゃ') => Some(["cha", "tya"])
    case ('ち', 'ゅ') => Some(["chu", "tyu"])
    case ('ち', 'ょ') => Some(["cho", "tyo"])
    case ('に', 'ゃ') => Some(["nya"])
    case ('に', 'ゅ') => Some(["nyu"])
    case ('に', 'ょ') => Some(["nyo"])
    case ('ひ', 'ゃ') => Some(["hya"])
    case ('ひ', 'ゅ') => Some(["hyu"])
    case ('ひ', 'ょ') => Some(["hyo"])
    case ('み', 'ゃ') => Some(["mya"])
    case ('み', 'ゅ') => Some(["myu"])
    case ('み', 'ょ') => Some(["myo"])
    case ('り', 'ゃ') => Some(["rya"])
    case ('り', 'ゅ') => Some(["ryu"])
    case ('り', 'ょ') => Some(["ryo"])
    case ('ぎ', 'ゃ') => Some(["gya"])
    case ('ぎ', 'ゅ') => Some(["gyu"])
    case ('ぎ', 'ょ') => Some(["gyo"])
    case ('じ', 'ゃ') => Some(["ja", "zya"])
    case ('じ', 'ゅ') => Some(["ju", "zyu"])
    case ('じ', 'ょ') => Some(["jo", "zyo"])
    case ('び', 'ゃ') => Some(["bya"])
    case ('び', 'ゅ') => Some(["byu"])
    case ('び', 'ょ') => Some(["byo"])
    case ('ぴ', 'ゃ') => Some(["pya"])
    case ('ぴ', 'ゅ') => Some(["pyu"])
    case ('ぴ', 'ょ') => Some(["pyo"])
    case _ => None
  }

  /** Every key of the one-character table is a hiragana letter or the prolonged sound mark. */
  lemma HiraganaSingleKeys(c: char)
    ensures HiraganaSingle(c).Some? ==> IsHiraganaLetter(c) || c == 'ー'
  {
  }

  /** Every entry of the one-character table lists at least one spelling, none empty. */
  lemma HiraganaSingleEntries(c: char)
    ensures var r := HiraganaSingle(c);
      r.Some? ==> |r.value| > 0 && forall s :: s in r.value ==> |s| > 0
  {
  }

  /** Every entry of the two-character table lists at least one spelling, none empty. */
  lemma HiraganaPairEntries(first: char, second: char)
    ensures var r := HiraganaPair(first, second);
      r.Some? ==> |r.value| > 0 && forall s :: s in r.value ==> |s| > 0
  {
  }

  /**
   * The single-character katakana-to-hiragana table. Every entry is the
   * code-point shift by 0x60 that adaptive.ts computes, except the
   * prolonged sound mark, which maps to itself.
   */
  function KatakanaToHiragana(c: char): Option<char>
  {
    match c
    case 'ア' => Some('あ')
    case 'イ' => Some('い')
    case 'ウ' => Some('う')
    case 'エ' => Some('え')
    case 'オ' => Some('お')
    case 'カ' => Some('か')
    case 'キ' => Some('き')
    case 'ク' => Some('く')
    case 'ケ' => Some('け')
    case 'コ' => Some('こ')
    case 'サ' => Some('さ')
    case 'シ' => Some('し')
    case 'ス' => Some('す')
    case 'セ' => Some('せ')
    case 'ソ' => Some('そ')
    case 'タ' => Some('た')
    case 'チ' => Some('ち')
    case 'ツ' => Some('つ')
    case 'テ' => Some('て')
    case 'ト' => Some('と')
    case 'ナ' => Some('な')
    case 'ニ' => Some('に')
    case 'ヌ' => Some('ぬ')
    case 'ネ' => Some('ね')
    case 'ノ' => Some('の')
    case 'ハ' => Some('は')
    case 'ヒ' => Some('ひ')
    case 'フ' => Some('ふ')
    case 'ヘ' => Some('へ')
    case 'ホ' => Some('ほ')
    case 'マ' => Some('ま')
    case 'ミ' => Some('み')
    case 'ム' => Some('む')
    case 'メ' => Some('め')
    case 'モ' => Some('も')
    case 'ヤ' => Some('や')
    case 'ユ' => Some('ゆ')
    case 'ヨ' => Some('よ')
    case 'ラ' => Some('ら')
    case 'リ' => Some('り')
    case 'ル' => Some('る')
    case 'レ' => Some('れ')
    case 'ロ' => Some('ろ')
    case 'ワ' => Some('わ')
    case 'ヲ' => Some('を')
    case 'ン' => Some('ん')
    case 'ガ' => Some('が')
    case 'ギ' => Some('ぎ')
    case 'グ' => Some('ぐ')
    case 'ゲ' => Some('げ')
    case 'ゴ' => Some('ご')
    case 'ザ' => Some('ざ')
    case 'ジ' => Some('じ')
    case 'ズ' => Some('ず')
    case 'ゼ' => Some('ぜ')
    case 'ゾ' => Some('ぞ')
    case 'ダ' => Some('だ')
    case 'ヂ' => Some('ぢ')
    case 'ヅ' => Some('づ')
    case 'デ' => Some('で')
    case 'ド' => Some('ど')
    case 'バ' => Some('ば')
    case 'ビ' => Some('び')
    case 'ブ' => Some('ぶ')
    case 'ベ' => Some('べ')
    case 'ボ' => Some('ぼ')
    case 'パ' => Some('ぱ')
    case 'ピ' => Some('ぴ')
    case 'プ' => Some('ぷ')
    case 'ペ' => Some('ぺ')
    case 'ポ' => Some('ぽ')
    case 'ャ' => Some('ゃ')
    case 'ュ' => Some('ゅ')
    case 'ョ' => Some('ょ')
    case 'ァ' => Some('ぁ')
    case 'ィ' => Some('ぃ')
    case 'ゥ' => Some('ぅ')
    case 'ェ' => Some('ぇ')
    case 'ォ' => Some('ぉ')
    case 'ッ' => Some('っ')
    case 'ー' => Some('ー')
    case _ => None
  }

  /**
   * The two-character katakana combination table; each entry shifts both
   * characters as the single-character table does.
   */
  function KatakanaCombination(first: char, second: char): Option<string>
  {
    match (first, second)
    case ('キ', 'ャ') => Some("きゃ")
    case ('キ', 'ュ') => Some("きゅ")
    case ('キ', 'ョ') => Some("きょ")
    case ('シ', 'ャ') => Some("しゃ")
    case ('シ', 'ュ') => Some("しゅ")
    case ('シ', 'ョ') => Some("しょ")
    case ('チ', 'ャ') => Some("ちゃ")
    case ('チ', 'ュ') => Some("ちゅ")
    case ('チ', 'ョ') => Some("ちょ")
    case ('ニ', 'ャ') => Some("にゃ")
    case ('ニ', 'ュ') => Some("にゅ")
    case ('ニ', 'ョ') => Some("にょ")
    case ('ヒ', 'ャ') => Some("ひゃ")
    case ('ヒ', 'ュ') => Some("ひゅ")
    case ('ヒ', 'ョ') => Some("ひょ")
    case ('ミ', 'ャ') => Some("みゃ")
    case ('ミ', 'ュ') => Some("みゅ")
    case ('ミ', 'ョ') => Some("みょ")
    case ('リ', 'ャ') => Some("りゃ")
    case ('リ', 'ュ') => Some("りゅ")
    case ('リ', 'ョ') => Some("りょ")
    case ('ギ', 'ャ') => Some("ぎゃ")
    case ('ギ', 'ュ') => Some("ぎゅ")
    case ('ギ', 'ョ') => Some("ぎょ")
    case ('ジ', 'ャ') => Some("じゃ")
    case ('ジ', 'ュ') => Some("じゅ")
    case ('ジ', 'ョ') => Some("じょ")
    case ('ビ', 'ャ') => Some("びゃ")
    case ('ビ', 'ュ') => Some("びゅ")
    case ('ビ', 'ョ') => Some("びょ")
    case ('ピ', 'ャ') => Some("ぴゃ")
    case ('ピ', 'ュ') => Some("ぴゅ")
    case ('ピ', 'ョ') => Some("ぴょ")
    case _ => None
  }

  /**
   * Every entry of the single-character katakana table is the shift by
   * 0x60 of a katakana letter, except the prolonged sound mark, which maps
   * to itself.
   */
  lemma KatakanaToHiraganaShift(c: char)
    ensures var r := KatakanaToHiragana(c);
      r.Some? ==> (c == 'ー' && r.value == 'ー') || (IsKatakanaLetter(c) && r.value as int == c as int - 0x60)
  {
    KatakanaToHiraganaKeys(c);
  }

  /** Every key of the single-character katakana table is a katakana letter or the prolonged sound mark. */
  lemma KatakanaToHiraganaKeys(c: char)
    ensures KatakanaToHiragana(c).Some? ==> IsKatakanaLetter(c) || c == 'ー'
  {
  }

  /** Every entry of the combination table shifts both katakana letters by 0x60. */
  lemma KatakanaCombinationShift(first: char, second: char)
    ensures var r := KatakanaCombination(first, second);
      r.Some? ==>
        && |r.value| == 2 && IsKatakanaLetter(first) && IsKatakanaLetter(second)
        && r.value[0] as int == first as int - 0x60 && r.value[1] as int == second as int - 0x60
  {
  }

  /** The hiragana letters, U+3041 to U+3096. */
  predicate IsHiraganaLetter(c: char)
  {
    '\U{3041}' <= c <= '\U{3096}'
  }

  /** The katakana letters, U+30A1 to U+30F6. */
  predicate IsKatakanaLetter(c: char)
  {
    '\U{30A1}' <= c <= '\U{30F6}'
  }

  // ------------------------------------------------------------------
  // Katakana folding (toHiragana)
  // ------------------------------------------------------------------

  /**
   * The folded text: a two-character combination is tried first, then the
   * single-character table; a character in neither is copied unchanged.
   */
  function FoldKana(text: string): string
  {
    if |text| == 0 then ""
    else if 1 < |text| && KatakanaCombination(text[0], text[1]).Some? then
      KatakanaCombination(text[0], text[1]).value + FoldKana(text[2..])
    else
      [KatakanaToHiragana(text[0]).GetOr(text[0])] + FoldKana(text[1..])
  }

  method ToHiragana(text: string) returns (result: string)
    ensures result == FoldKana(text)
  {
    result := "";
    var i := 0;
    assert text[0..] == text;
    while i < |text|
      invariant 0 <= i <= |text|
      invariant result + FoldKana(text[i..]) == FoldKana(text)
    {
      var folded, width := NextFolded(text, i);
      assert result + folded + FoldKana(text[i + width..]) == result + FoldKana(text[i..]);
      result := result + folded;
      i := i + width;
    }
  }

  /**
   * One step of the folding loop: the combination at `i` if there is one,
   * else the single character there, folded or copied.
   */
  method NextFolded(text: string, i: nat) returns (folded: string, width: nat)
    requires i < |text|
    ensures 1 <= width <= 2 && i + width <= |text|
    ensures FoldKana(text[i..]) == folded + FoldKana(text[i + width..])
  {
    if i + 1 < |text| {
      var combination := KatakanaCombination(text[i], text[i + 1]);
      if combination.Some? {
        assert text[i..][2..] == text[i + 2..];
        return combination.value, 2;
      }
    }
    assert text[i..][1..] == text[i + 1..];
    var c := text[i];
    folded := [KatakanaToHiragana(c).GetOr(c)];
    width := 1;
  }

  /** Folding maps each character to exactly one character. */
  lemma {:induction false} FoldKanaLength(text: string)
    ensures |FoldKana(text)| == |text|
  {
    if 1 < |text| && KatakanaCombination(text[0], text[1]).Some? {
      FoldKanaLength(text[2..]);
    } else if |text| > 0 {
      FoldKanaLength(text[1..]);
    }
  }

  /**
   * Text without katakana letters folds to itself: hiragana, kanji,
   * punctuation and the prolonged sound mark are preserved.
   */
  lemma {:induction false} FoldKanaKeepsNonKatakana(text: string)
    requires forall k :: 0 <= k < |text| ==> !IsKatakanaLetter(text[k])
    ensures FoldKana(text) == text
  {
    if |text| > 0 {
      assert KatakanaToHiragana(text[0]).GetOr(text[0]) == text[0];
      FoldKanaKeepsNonKatakana(text[1..]);
      assert text == [text[0]] + text[1..];
    }
  }

  // ------------------------------------------------------------------
  // Tokens (tokenize)
  // ------------------------------------------------------------------

  /** One phonetic unit with its accepted spellings; a small tsu has none of its own. */
  datatype Token = Token(kana: string, romaji: seq<string>, isSmallTsu: bool)

  /** The token for one character that does not start a two-character entry. */
  function SingleToken(c: char): Token
  {
    if c == 'っ' then Token([c], [], true)
    else
      match HiraganaSingle(c)
      case Some(spellings) => Token([c], spellings, false)
      case None => Token([c], [[c]], false)
  }

  /** The tokens of folded text: a two-character table entry is preferred. */
  function TokensOf(hiragana: string): seq<Token>
  {
    if |hiragana| == 0 then []
    else if 1 < |hiragana| && HiraganaPair(hiragana[0], hiragana[1]).Some? then
      [Token(hiragana[..2], HiraganaPair(hiragana[0], hiragana[1]).value, false)] + TokensOf(hiragana[2..])
    else
      [SingleToken(hiragana[0])] + TokensOf(hiragana[1..])
  }

  /** `tokenize`: folds the text to hiragana, then splits it into tokens. */
  method Tokenize(text: string) returns (tokens: seq<Token>)
    ensures tokens == TokensOf(FoldKana(text))
  {
    var hiragana := ToHiragana(text);
    tokens := SplitTokens(hiragana);
  }

  /** The token loop of `tokenize`, over text already folded to hiragana. */
  method SplitTokens(hiragana: string) returns (tokens: seq<Token>)
    ensures tokens == TokensOf(hiragana)
  {
    tokens := [];
    var i := 0;
    assert hiragana[0..] == hiragana;
    while i < |hiragana|
      invariant 0 <= i <= |hiragana|
      invariant tokens + TokensOf(hiragana[i..]) == TokensOf(hiragana)
    {
      var token, width := NextToken(hiragana, i);
      assert tokens + [token] + TokensOf(hiragana[i + width..]) == tokens + TokensOf(hiragana[i..]);
      tokens := tokens + [token];
      i := i + width;
    }
  }

  /**
   * One step of the token loop: a two-character table entry if the text at
   * `i` starts with one, else the token for the single character there.
   */
  method NextToken(hiragana: string, i: nat) returns (token: Token, width: nat)
    requires i < |hiragana|
    ensures 1 <= width <= 2 && i + width <= |hiragana|
    ensures TokensOf(hiragana[i..]) == [token] + TokensOf(hiragana[i + width..])
  {
    if i + 1 < |hiragana| {
      var combo := hiragana[i..i + 2];
      var spellings := HiraganaPair(hiragana[i], hiragana[i + 1]);
      if spellings.Some? {
        TokensOfPair(hiragana[i..]);
        assert hiragana[i..][..2] == combo && hiragana[i..][2..] == hiragana[i + 2..];
        return Token(combo, spellings.value, false), 2;
      }
    }
    var c := hiragana[i];
    var romaji := HiraganaSingle(c);
    if c == 'っ' {
      token := Token([c], [], true);
    } else if romaji.Some? {
      token := Token([c], romaji.value, false);
    } else {
      token := Token([c], [[c]], false);
    }
    width := 1;
    TokensOfSingle(hiragana[i..]);
    assert hiragana[i..][1..] == hiragana[i + 1..];
    assert token == SingleToken(c);
  }

  lemma TokensOfPair(h: string)
    requires 1 < |h| && HiraganaPair(h[0], h[1]).Some?
    ensures TokensOf(h) == [Token(h[..2], HiraganaPair(h[0], h[1]).value, false)] + TokensOf(h[2..])
  {
  }

  lemma TokensOfSingle(h: string)
    requires 0 < |h| && !(1 < |h| && HiraganaPair(h[0], h[1]).Some?)
    ensures TokensOf(h) == [SingleToken(h[0])] + TokensOf(h[1..])
  {
  }

  /** The concatenated kana of a token sequence. */
  function KanaOf(tokens: seq<Token>): string
  {
    if tokens == [] then "" else tokens[0].kana + KanaOf(tokens[1..])
  }

  /** Tokenizing loses and adds nothing: the tokens spell the folded text back. */
  lemma {:induction false} TokensSpellText(hiragana: string)
    ensures KanaOf(TokensOf(hiragana)) == hiragana
  {
    if |hiragana| > 0 {
      var ts := TokensOf(hiragana);
      if 1 < |hiragana| && HiraganaPair(hiragana[0], hiragana[1]).Some? {
        TokensSpellText(hiragana[2..]);
        assert ts[1..] == TokensOf(hiragana[2..]);
        assert hiragana == hiragana[..2] + hiragana[2..];
      } else {
        TokensSpellText(hiragana[1..]);
        assert ts[1..] == TokensOf(hiragana[1..]);
        assert hiragana == [hiragana[0]] + hiragana[1..];
      }
    }
  }

  /**
   * What every token produced by the tokenizer looks like: non-empty kana,
   * the small tsu (and only it) flagged with no spellings of its own, and
   * every other token carrying a non-empty list of non-empty spellings.
   */
  ghost predicate WellFormedToken(t: Token)
  {
    && |t.kana| > 0
    && (t.isSmallTsu <==> t.kana == "っ")
    && (t.isSmallTsu ==> t.romaji == [])
    && (!t.isSmallTsu ==> |t.romaji| > 0 && forall s :: s in t.romaji ==> |s| > 0)
  }

  /**
   * Every token is well formed, and a token other than the small tsu carries
   * the table's spellings for its kana, or the kana itself as its only
   * spelling when the table has no entry.
   */
  lemma {:induction false} TokensWellFormed(hiragana: string)
    ensures forall t :: t in TokensOf(hiragana) ==>
      && WellFormedToken(t)
      && (!t.isSmallTsu ==> t.romaji == HiraganaRomaji(t.kana).GetOr([t.kana]))
  {
    if |hiragana| > 0 {
      var ts := TokensOf(hiragana);
      if 1 < |hiragana| && HiraganaPair(hiragana[0], hiragana[1]).Some? {
        HiraganaPairEntries(hiragana[0], hiragana[1]);
        TokensWellFormed(hiragana[2..]);
        assert ts[1..] == TokensOf(hiragana[2..]);
      } else {
        TokensWellFormed(hiragana[1..]);
        assert ts[1..] == TokensOf(hiragana[1..]);
        var c := hiragana[0];
        HiraganaSingleKeys(c);
        HiraganaSingleEntries(c);
        if c == 'っ' {
          assert ts[0] == Token("っ", [], true);
        } else if HiraganaSingle(c).None? {
          assert ts[0].romaji == [[c]];
        }
      }
      forall t | t in ts
        ensures WellFormedToken(t) && (!t.isSmallTsu ==> t.romaji == HiraganaRomaji(t.kana).GetOr([t.kana]))
      {
        if t != ts[0] {
          assert t in ts[1..];
        }
      }
    }
  }

  // ------------------------------------------------------------------
  // The matcher (matchRomaji)
  // ------------------------------------------------------------------

  /** One keystroke decision: matched (with the input length consumed), partial, or neither. */
  datatype MatchResult = MatchResult(matched: bool, consumed: nat, partial: bool)

  const NoMatch: MatchResult := MatchResult(false, 0, false)
  const Partial: MatchResult := MatchResult(false, 0, true)

  function Matched(consumed: nat): MatchResult
  {
    MatchResult(true, consumed, false)
  }

  /** The explicit spellings of a small tsu. */
  const EscapeSpellings: seq<string> := ["xtu", "xtsu"]

  /**
   * The search over the explicit small-tsu spellings: the first one the
   * input is a prefix of decides, matched only on an exact spelling.
   */
  function MatchEscape(spellings: seq<string>, input: string): (r: Option<MatchResult>)
    ensures r.Some? <==> exists s :: s in spellings && input <= s
    ensures r.Some? && r.value.matched ==> r.value.consumed == |input| && input in spellings
    ensures r.Some? ==> r.value == Partial || r.value.matched
  {
    if spellings == [] then None
    else if input <= spellings[0] then
      assert spellings[0] in spellings;
      Some(if input == spellings[0] then Matched(|input|) else Partial)
    else
      assert forall s :: s in spellings <==> s == spellings[0] || s in spellings[1..];
      MatchEscape(spellings[1..], input)
  }

  /**
   * JavaScript's `nextRomaji[0] + nextRomaji`. On an empty spelling the
   * first letter is `undefined`, and `undefined + ""` is the text "undefined".
   */
  function DoubledSpelling(spelling: string): string
  {
    if spelling == [] then "undefined" else [spelling[0]] + spelling
  }

  /**
   * The search over the next token's spellings for a small tsu: the first
   * doubled spelling the input is a prefix of decides; typing exactly its
   * first letter matches the small tsu, anything else is partial.
   */
  function MatchDoubled(nextSpellings: seq<string>, input: string): (r: Option<MatchResult>)
    ensures r.Some? <==> exists s :: s in nextSpellings && input <= DoubledSpelling(s)
    ensures r.Some? ==> r.value == Partial || r.value == Matched(1)
    ensures r.Some? && r.value.matched ==> |input| == 1
  {
    if nextSpellings == [] then None
    else
      var s := nextSpellings[0];
      if input <= DoubledSpelling(s) then
        Some(if |input| == 1 && s != [] && input[0] == s[0] then Matched(1) else Partial)
      else
        MatchDoubled(nextSpellings[1..], input)
  }

  /** The characters after which `ん` must be typed as "nn" in the matcher. */
  const NasalDoubleClass: string := "あいうえおやゆよぁぃぅぇぉゃゅょ"

  /** The characters after which needsDoubleN reports that "nn" is needed. */
  const HintDoubleClass: string := "あいうえおやゆよ"

  /** The anchored one-character regular expression test `/^[...]/`. */
  predicate StartsWithOneOf(text: string, chars: string)
  {
    |text| > 0 && text[0] in chars
  }

  /** The decision for `ん`: with `needsDouble` only "nn" completes it. */
  function MatchNasal(needsDouble: bool, input: string): (r: MatchResult)
    ensures r.matched ==> r.consumed == |input| && (input == "nn" || (!needsDouble && input == "n"))
    ensures r.partial <==> input <= "nn" && !r.matched
  {
    if needsDouble then
      if input == "n" then Partial
      else if input == "nn" then Matched(2)
      else if input <= "nn" then Partial
      else NoMatch
    else
      if input == "n" || input == "nn" then Matched(|input|)
      else if input <= "nn" then Partial
      else NoMatch
  }

  /**
   * The search over an ordinary token's spellings: the first spelling that
   * the input is a prefix of, or that is a prefix of the input, decides.
   */
  function MatchSpellings(spellings: seq<string>, input: string): (r: MatchResult)
    ensures r.partial ==> !r.matched && r.consumed == 0
    ensures !r.matched ==> r.consumed == 0
    ensures r.matched ==> exists s :: s in spellings && s <= input && r.consumed == |s|
  {
    if spellings == [] then NoMatch
    else
      var s := spellings[0];
      if input <= s then
        (if input == s then Matched(|s|) else Partial)
      else if s <= input then
        Matched(|s|)
      else
        MatchSpellings(spellings[1..], input)
  }

  /** The matcher: one decision for the token at `tokenIndex` and the keystrokes typed for it. */
  function MatchRomaji(tokens: seq<Token>, tokenIndex: nat, input: string): (r: MatchResult)
    ensures tokenIndex >= |tokens| ==> r == NoMatch
    ensures r.partial ==> !r.matched && r.consumed == 0
    ensures !r.matched ==> r.consumed == 0
    ensures r.matched ==> r.consumed <= |input|
    ensures tokenIndex < |tokens| && WellFormedToken(tokens[tokenIndex]) && r.matched ==> r.consumed >= 1
  {
    if tokenIndex >= |tokens| then NoMatch
    else
      var token := tokens[tokenIndex];
      if token.isSmallTsu then
        if tokenIndex + 1 >= |tokens| then
          MatchEscape(EscapeSpellings, input).GetOr(NoMatch)
        else
          match MatchDoubled(tokens[tokenIndex + 1].romaji, input)
          case Some(decision) => decision
          case None => MatchEscape(EscapeSpellings, input).GetOr(NoMatch)
      else if token.kana == "ん" then
        MatchNasal(tokenIndex + 1 < |tokens| && StartsWithOneOf(tokens[tokenIndex + 1].kana, NasalDoubleClass), input)
      else
        MatchSpellings(token.romaji, input)
  }

  // ------------------------------------------------------------------
  // Properties of the matcher
  // ------------------------------------------------------------------

  /** On tokens produced by the tokenizer, a match always consumes input and is never partial. */
  lemma MatchOnTokenized(hiragana: string, tokenIndex: nat, input: string)
    ensures var r := MatchRomaji(TokensOf(hiragana), tokenIndex, input);
      (r.matched ==> r.consumed >= 1 && !r.partial) && (r.partial ==> !r.matched && r.consumed == 0)
  {
    TokensWellFormed(hiragana);
  }

  /** Typing the first letter of any spelling of the next token matches the small tsu. */
  lemma {:induction false} MatchDoubledFirstLetter(spellings: seq<string>, k: nat)
    requires k < |spellings|
    requires forall s :: s in spellings ==> |s| > 0
    ensures MatchDoubled(spellings, [spellings[k][0]]) == Some(Matched(1))
  {
    var t := spellings[0];
    assert |t| > 0;
    var c := spellings[k][0];
    if [c] <= DoubledSpelling(t) {
      assert [c][0] == DoubledSpelling(t)[0] == t[0];
    } else {
      assert k > 0 && spellings[1..][k - 1] == spellings[k];
      assert forall s :: s in spellings[1..] ==> s in spellings;
      MatchDoubledFirstLetter(spellings[1..], k - 1);
    }
  }

  /**
   * Small tsu followed by a token: the first letter of one of that token's
   * spellings matches with one character consumed, and any other prefix of
   * the doubled spelling is partial.
   */
  lemma SmallTsuFollowed(tokens: seq<Token>, tokenIndex: nat, k: nat, input: string)
    requires tokenIndex + 1 < |tokens| && tokens[tokenIndex].isSmallTsu
    requires WellFormedToken(tokens[tokenIndex + 1]) && k < |tokens[tokenIndex + 1].romaji|
    ensures var s := tokens[tokenIndex + 1].romaji[k];
      MatchRomaji(tokens, tokenIndex, [s[0]]) == Matched(1)
    ensures var s := tokens[tokenIndex + 1].romaji[k];
      input <= DoubledSpelling(s) && |input| != 1 ==> MatchRomaji(tokens, tokenIndex, input) == Partial
  {
    var spellings := tokens[tokenIndex + 1].romaji;
    MatchDoubledFirstLetter(spellings, k);
    assert spellings[k] in spellings;
  }

  /** The explicit spellings of a small tsu: exactly "xtu" or "xtsu" match, and their proper prefixes are partial. */
  lemma EscapeOutcome(input: string)
    ensures var r := MatchEscape(EscapeSpellings, input).GetOr(NoMatch);
      (r.matched <==> input == "xtu" || input == "xtsu")
      && (r.matched ==> r.consumed == |input|)
      && (r.partial <==> (input < "xtu" || input < "xtsu"))
  {
    assert EscapeSpellings[1..] == ["xtsu"];
    if input == "xtu" {
      assert !(input <= "xtsu") by { assert input[2] != "xtsu"[2]; }
    } else if input == "xtsu" {
      assert !(input <= "xtu");
    } else if input <= "xtsu" {
      if !(input <= "xtu") {
        assert MatchEscape(EscapeSpellings[1..], input) == Some(Partial);
      }
      assert MatchEscape(EscapeSpellings, input) == Some(Partial);
    }
  }

  /** Small tsu at the end: exactly "xtu" or "xtsu" match, and their proper prefixes are partial. */
  lemma SmallTsuAtEnd(tokens: seq<Token>, input: string)
    requires |tokens| > 0 && tokens[|tokens| - 1].isSmallTsu
    ensures var r := MatchRomaji(tokens, |tokens| - 1, input);
      (r.matched <==> input == "xtu" || input == "xtsu")
      && (r.matched ==> r.consumed == |input|)
      && (r.partial <==> (input < "xtu" || input < "xtsu"))
  {
    EscapeOutcome(input);
  }

  /**
   * Small tsu before a token when the input extends no doubled spelling of
   * that token: the matcher falls back to the explicit spellings, so exactly
   * "xtu" or "xtsu" match and their proper prefixes are partial.
   */
  lemma SmallTsuFollowedEscape(tokens: seq<Token>, tokenIndex: nat, input: string)
    requires tokenIndex + 1 < |tokens| && tokens[tokenIndex].isSmallTsu
    requires forall s :: s in tokens[tokenIndex + 1].romaji ==> !(input <= DoubledSpelling(s))
    ensures var r := MatchRomaji(tokens, tokenIndex, input);
      (r.matched <==> input == "xtu" || input == "xtsu")
      && (r.matched ==> r.consumed == |input|)
      && (r.partial <==> (input < "xtu" || input < "xtsu"))
  {
    EscapeOutcome(input);
  }

  /** "xtu" typed for the っ of "かっぱ": no doubled spelling starts with "x", so the explicit spelling matches. */
  lemma SmallTsuEscapeExample()
    ensures MatchRomaji(TokensOf("かっぱ"), 1, "xtu") == Matched(3)
  {
    KappaTokens();
    var tokens := TokensOf("かっぱ");
    assert tokens[2].romaji == ["pa"];
    assert DoubledSpelling("pa") == "ppa";
    SmallTsuFollowedEscape(tokens, 1, "xtu");
  }

  /** `ん` before a vowel, a y-kana or a small kana: "n" waits, only "nn" matches. */
  lemma NasalBeforeVowel(tokens: seq<Token>, tokenIndex: nat, input: string)
    requires tokenIndex + 1 < |tokens| && tokens[tokenIndex].kana == "ん" && !tokens[tokenIndex].isSmallTsu
    requires StartsWithOneOf(tokens[tokenIndex + 1].kana, NasalDoubleClass)
    ensures MatchRomaji(tokens, tokenIndex, "n") == Partial
    ensures MatchRomaji(tokens, tokenIndex, "nn") == Matched(2)
    ensures MatchRomaji(tokens, tokenIndex, input).matched ==> input == "nn"
  {
  }

  /** `ん` elsewhere, including at the end: "n" and "nn" both match, consuming what was typed. */
  lemma NasalOtherwise(tokens: seq<Token>, tokenIndex: nat)
    requires tokenIndex < |tokens| && tokens[tokenIndex].kana == "ん" && !tokens[tokenIndex].isSmallTsu
    requires !(tokenIndex + 1 < |tokens| && StartsWithOneOf(tokens[tokenIndex + 1].kana, NasalDoubleClass))
    ensures MatchRomaji(tokens, tokenIndex, "n") == Matched(1)
    ensures MatchRomaji(tokens, tokenIndex, "nn") == Matched(2)
  {
  }

  /** A spelling decides an input when one of the two is a prefix of the other. */
  predicate Decides(spelling: string, input: string)
  {
    input <= spelling || spelling <= input
  }

  /**
   * The first deciding spelling settles the result: exact or extending input
   * matches with that spelling's length consumed, a proper prefix is partial.
   */
  lemma {:induction false} MatchSpellingsFirstDeciding(spellings: seq<string>, input: string, k: nat)
    requires k < |spellings| && Decides(spellings[k], input)
    requires forall j :: 0 <= j < k ==> !Decides(spellings[j], input)
    ensures MatchSpellings(spellings, input)
      == if spellings[k] <= input then Matched(|spellings[k]|) else Partial
    decreases k
  {
    if k > 0 {
      assert !Decides(spellings[0], input);
      MatchSpellingsFirstDeciding(spellings[1..], input, k - 1);
    }
  }

  /** With no deciding spelling the result is no match. */
  lemma {:induction false} MatchSpellingsNoneDeciding(spellings: seq<string>, input: string)
    requires forall j :: 0 <= j < |spellings| ==> !Decides(spellings[j], input)
    ensures MatchSpellings(spellings, input) == NoMatch
  {
    if spellings != [] {
      assert !Decides(spellings[0], input);
      MatchSpellingsNoneDeciding(spellings[1..], input);
    }
  }

  /** An ordinary token is matched by its first deciding spelling, or not at all. */
  lemma OrdinaryToken(tokens: seq<Token>, tokenIndex: nat, input: string)
    requires tokenIndex < |tokens| && !tokens[tokenIndex].isSmallTsu && tokens[tokenIndex].kana != "ん"
    ensures var spellings := tokens[tokenIndex].romaji;
      var r := MatchRomaji(tokens, tokenIndex, input);
      (forall j :: 0 <= j < |spellings| ==> !Decides(spellings[j], input)) ==> r == NoMatch
    ensures var spellings := tokens[tokenIndex].romaji;
      var r := MatchRomaji(tokens, tokenIndex, input);
      forall k :: 0 <= k < |spellings| && Decides(spellings[k], input)
        && (forall j :: 0 <= j < k ==> !Decides(spellings[j], input))
        ==> r == if spellings[k] <= input then Matched(|spellings[k]|) else Partial
  {
    var spellings := tokens[tokenIndex].romaji;
    if forall j :: 0 <= j < |spellings| ==> !Decides(spellings[j], input) {
      MatchSpellingsNoneDeciding(spellings, input);
    }
    forall k | 0 <= k < |spellings| && Decides(spellings[k], input)
      && (forall j :: 0 <= j < k ==> !Decides(spellings[j], input))
      ensures MatchRomaji(tokens, tokenIndex, input)
        == if spellings[k] <= input then Matched(|spellings[k]|) else Partial
    {
      MatchSpellingsFirstDeciding(spellings, input, k);
    }
  }

  /** Worked example: in かっぱ, typing "p" after か completes the small tsu. */
  lemma SmallTsuExample()
    ensures MatchRomaji(TokensOf("かっぱ"), 1, "p") == Matched(1)
  {
    KappaTokens();
  }

  /** Worked example: after か, a "k" does not double the ぱ that follows っ. */
  lemma SmallTsuMismatchExample()
    ensures MatchRomaji(TokensOf("かっぱ"), 1, "k") == NoMatch
  {
    KappaTokens();
  }

  /** The tokens of かっぱ: three single characters, the middle one the small tsu. */
  lemma KappaTokens()
    ensures TokensOf("かっぱ") == [Token("か", ["ka"], false), Token("っ", [], true), Token("ぱ", ["pa"], false)]
  {
    TokensOfSingle("かっぱ");
    TokensOfSingle("っぱ");
    TokensOfSingle("ぱ");
  }

  /** Worked example: before い, ん waits for a second "n". */
  lemma NasalBeforeVowelExample()
    ensures MatchRomaji(TokensOf("あんい"), 1, "n") == Partial
  {
    TokensOfSingle("あんい");
    TokensOfSingle("んい");
  }

  /** Worked example: before た a single "n" completes ん. */
  lemma NasalBeforeConsonantExample()
    ensures MatchRomaji(TokensOf("あんた"), 1, "n") == Matched(1)
  {
    TokensOfSingle("あんた");
    TokensOfSingle("んた");
  }

  /** Worked example: typing past the spelling of しゃ consumes only the spelling. */
  lemma ExtendedInputExample()
    ensures MatchRomaji(TokensOf("しゃ"), 0, "shai") == Matched(3)
  {
    TokensOfPair("しゃ");
  }

  // ------------------------------------------------------------------
  // The typing hint and punctuation
  // ------------------------------------------------------------------

  /** Whether the hint should tell the learner to type `ん` as "nn". */
  function NeedsDoubleN(tokens: seq<Token>, index: int): (r: bool)
    ensures r <==>
      && 0 <= index < |tokens| - 1 && tokens[index].kana == "ん"
      && |tokens[index + 1].kana| > 0 && tokens[index + 1].kana[0] in HintDoubleClass
  {
    if !(0 <= index < |tokens|) || tokens[index].kana != "ん" then false
    else if index + 1 >= |tokens| then false
    else StartsWithOneOf(tokens[index + 1].kana, HintDoubleClass)
  }

  /** When the hint asks for "nn", the matcher demands it too. */
  lemma {:induction false} NeedsDoubleNAgrees(tokens: seq<Token>, index: int)
    requires NeedsDoubleN(tokens, index) && !tokens[index].isSmallTsu
    ensures MatchRomaji(tokens, index, "n") == Partial
    ensures MatchRomaji(tokens, index, "nn") == Matched(2)
  {
    var next := tokens[index + 1].kana;
    assert next[0] in HintDoubleClass;
    assert forall c :: c in HintDoubleClass ==> c in NasalDoubleClass;
  }

  /**
   * The hint's character class is narrower than the matcher's: before a small
   * y-kana the matcher insists on "nn" while the hint does not ask for it.
   */
  lemma NeedsDoubleNNarrowerThanMatcher()
    ensures var tokens := TokensOf("んゃ");
      !NeedsDoubleN(tokens, 0) && MatchRomaji(tokens, 0, "n") == Partial
  {
    TokensOfSingle("んゃ");
    TokensOfSingle("ゃ");
  }

  /** The characters that are skipped while typing: listed marks and JavaScript's `\s` whitespace. */
  predicate IsPunctuationChar(c: char)
  {
    || '\U{2000}' <= c <= '\U{200A}'
    || match c
       case '。' | '、' | '！' | '？' | '「' | '」' | '『' | '』' | '（' | '）' | '・' | '～' | '…' => true
       case '\t' | '\n' | '\U{000B}' | '\U{000C}' | '\r' | ' ' | '\U{00A0}' | '\U{1680}' | '\U{2028}'
          | '\U{2029}' | '\U{202F}' | '\U{205F}' | '\U{3000}' | '\U{FEFF}' => true
       case _ => false
  }

  /** Whether a string is non-empty punctuation or whitespace only. */
  function IsPunctuation(text: string): (r: bool)
    ensures r ==> |text| > 0
    ensures r <==> |text| > 0 && forall c :: c in text ==> IsPunctuationChar(c)
  {
    |text| > 0 && forall i :: 0 <= i < |text| ==> IsPunctuationChar(text[i])
  }

  /** Joining two punctuation-only strings gives a punctuation-only string. */
  lemma PunctuationConcat(a: string, b: string)
    requires IsPunctuation(a) && IsPunctuation(b)
    ensures IsPunctuation(a + b)
  {
    forall i | 0 <= i < |a + b|
      ensures IsPunctuationChar((a + b)[i])
    {
      if i >= |a| {
        assert (a + b)[i] == b[i - |a|];
      }
    }
  }

  /** A string holding a letter, or any kana of the romaji table, is not punctuation. */
  lemma PunctuationExcludesKana(text: string, i: nat)
    requires i < |text| && (HiraganaSingle(text[i]).Some? || 'a' <= text[i] <= 'z')
    ensures !IsPunctuation(text)
  {
    HiraganaSingleKeys(text[i]);
    assert !IsPunctuationChar(text[i]);
  }
}
