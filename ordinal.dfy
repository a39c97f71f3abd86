/**
  `extract_and_convert_ordinal`: finds the first whitespace token that is a
  number, or a number followed by an English ordinal suffix, and spells it out
  from a fixed table covering 1 to 30.
 */
module Ordinal {
  import opened PyText

  const NUMBER_WORDS: map<string, string> := map[
    "1" := "First", "2" := "Second", "3" := "Third", "4" := "Fourth", "5" := "Fifth",
    "6" := "Sixth", "7" := "Seventh", "8" := "Eighth", "9" := "Ninth", "10" := "Tenth",
    "11" := "Eleventh", "12" := "Twelfth", "13" := "Thirteenth", "14" := "Fourteenth",
    "15" := "Fifteenth", "16" := "Sixteenth", "17" := "Seventeenth", "18" := "Eighteenth",
    "19" := "Nineteenth", "20" := "Twentieth", "21" := "Twenty First", "22" := "Twenty Second",
    "23" := "Twenty Third", "24" := "Twenty Fourth", "25" := "Twenty Fifth", "26" := "Twenty Sixth",
    "27" := "Twenty Seventh", "28" := "Twenty Eighth", "29" := "Twenty Ninth", "30" := "Thirtieth"
  ]

  const SUFFIXES: seq<string> := ["ST", "ND", "RD", "TH"]

  /** Python's `word[:-2]`. */
  function DropLastTwo(w: string): string
  {
    if |w| >= 2 then w[..|w| - 2] else ""
  }

  /** Python's `word[-2:]`. */
  function LastTwo(w: string): string
  {
    if |w| >= 2 then w[|w| - 2..] else w
  }

  /** The token test of the scan: all digits, or digits followed by an
      upper-case ordinal suffix. */
  predicate IsOrdinalToken(w: string)
  {
    IsDigits(w) || (IsDigits(DropLastTwo(w)) && LastTwo(w) in SUFFIXES)
  }

  /** The table key: the token minus its last two characters whenever that
      remainder is a digit string, otherwise the whole token. */
  function LookupKey(w: string): string
  {
    if IsDigits(DropLastTwo(w)) then DropLastTwo(w) else w
  }

  /** `number_to_words.get(key, word)`. */
  function Convert(w: string): string
  {
    if LookupKey(w) in NUMBER_WORDS then NUMBER_WORDS[LookupKey(w)] else w
  }

  /** The first-match scan over `tokens`, falling back to the whole `text`. */
  function FirstOrdinal(tokens: seq<string>, text: string): (r: string)
    ensures r == text || r in NUMBER_WORDS.Values || r in tokens
  {
    if tokens == [] then text
    else if IsOrdinalToken(tokens[0]) then Convert(tokens[0])
    else FirstOrdinal(tokens[1..], text)
  }

  /** `extract_and_convert_ordinal(text)`: the result is the text itself, a
      word from the table, or one of the text's tokens. */
  function ExtractAndConvertOrdinal(text: string): (r: string)
    ensures r == text || r in NUMBER_WORDS.Values || r in SplitWs(text)
  {
    FirstOrdinal(SplitWs(text), text)
  }

  lemma {:induction false} FirstOrdinalAt(tokens: seq<string>, text: string, i: nat)
    requires i < |tokens| && IsOrdinalToken(tokens[i])
    requires forall j :: 0 <= j < i ==> !IsOrdinalToken(tokens[j])
    ensures FirstOrdinal(tokens, text) == Convert(tokens[i])
  {
    if i > 0 {
      assert !IsOrdinalToken(tokens[0]);
      FirstOrdinalAt(tokens[1..], text, i - 1);
    }
  }

  lemma {:induction false} FirstOrdinalNone(tokens: seq<string>, text: string)
    requires forall j :: 0 <= j < |tokens| ==> !IsOrdinalToken(tokens[j])
    ensures FirstOrdinal(tokens, text) == text
  {
    if tokens != [] {
      FirstOrdinalNone(tokens[1..], text);
    }
  }

  /** The conversion is decided by the first qualifying token, and only by it. */
  lemma OrdinalFirstMatch(text: string, i: nat)
    requires i < |SplitWs(text)| && IsOrdinalToken(SplitWs(text)[i])
    requires forall j :: 0 <= j < i ==> !IsOrdinalToken(SplitWs(text)[j])
    ensures ExtractAndConvertOrdinal(text) == Convert(SplitWs(text)[i])
  {
    FirstOrdinalAt(SplitWs(text), text, i);
  }

  /** Text with no qualifying token comes back unchanged. */
  lemma OrdinalNoMatch(text: string)
    requires forall j :: 0 <= j < |SplitWs(text)| ==> !IsOrdinalToken(SplitWs(text)[j])
    ensures ExtractAndConvertOrdinal(text) == text
  {
    FirstOrdinalNone(SplitWs(text), text);
  }

  lemma TableKeysAreShortNumbers()
    ensures forall k :: k in NUMBER_WORDS ==> IsDigits(k) && 1 <= |k| <= 2
  {
  }

  /** A number of one or two digits, bare or with one of the four suffixes, is
      one qualifying token whose table key is the number itself. */
  lemma {:induction false} ShortNumberToken(k: string, suffix: string)
    requires IsDigits(k) && |k| <= 2
    requires suffix == "" || suffix in SUFFIXES
    ensures ExtractAndConvertOrdinal(k + suffix) == Convert(k + suffix)
    ensures LookupKey(k + suffix) == k
  {
    var w := k + suffix;
    assert NoWs(w) by {
      forall i | 0 <= i < |w| ensures !IsWs(w[i]) {
        if i < |k| { assert w[i] == k[i]; } else { assert w[i] == suffix[i - |k|]; }
      }
    }
    SplitWsOfToken(w);
    if suffix == "" {
      assert w == k;
      assert !IsDigits(DropLastTwo(k));
    } else {
      assert DropLastTwo(w) == k && LastTwo(w) == suffix;
    }
    OrdinalFirstMatch(w, 0);
  }

  /** Every number of the table, bare or with any of the four suffixes, is
      spelled out as the table says. */
  lemma OrdinalOfTableEntry(k: string, suffix: string)
    requires k in NUMBER_WORDS
    requires suffix == "" || suffix in SUFFIXES
    ensures ExtractAndConvertOrdinal(k + suffix) == NUMBER_WORDS[k]
  {
    TableKeysAreShortNumbers();
    ShortNumberToken(k, suffix);
  }

  /** A bare number of one or two digits outside the table is left as it is. */
  lemma OrdinalOutsideTable(d: string)
    requires IsDigits(d) && |d| <= 2 && d !in NUMBER_WORDS
    ensures ExtractAndConvertOrdinal(d) == d
  {
    SplitWsOfToken(d);
    OrdinalFirstMatch(d, 0);
  }

  /** A bare number of three or more digits is looked up without its last two
      digits, so that "123" reads as "First", "1234" as "Twelfth", and only a
      number such as "3100", whose leading digits are not in the table, passes
      through. */
  lemma OrdinalOfLongNumber(d: string)
    requires IsDigits(d) && |d| >= 3
    ensures ExtractAndConvertOrdinal(d) ==
            if d[..|d| - 2] in NUMBER_WORDS then NUMBER_WORDS[d[..|d| - 2]] else d
  {
    SplitWsOfToken(d);
    assert IsDigits(DropLastTwo(d));
    OrdinalFirstMatch(d, 0);
  }

  lemma OrdinalExampleSuffix()
    ensures ExtractAndConvertOrdinal("3RD") == "Third"
  {
    OrdinalOfTableEntry("3", "RD");
    assert "3" + "RD" == "3RD";
  }

  lemma OrdinalExampleBare()
    ensures ExtractAndConvertOrdinal("21") == "Twenty First"
  {
    OrdinalOfTableEntry("21", "");
    assert "21" + "" == "21";
  }

  lemma OrdinalExampleLong()
    ensures ExtractAndConvertOrdinal("123") == "First"
  {
    OrdinalOfLongNumber("123");
    assert "123"[..1] == "1";
  }

  lemma OrdinalExampleOutside()
    ensures ExtractAndConvertOrdinal("31") == "31"
  {
    OrdinalOutsideTable("31");
  }
}
