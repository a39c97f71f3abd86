/**
  `parse_name(data, key, prefix)`: splits a court-style name "LAST, FIRST
  MIDDLE" held under `key` and writes its three parts under
  `<prefix>_first_name`, `<prefix>_middle_name` and `<prefix>_last_name`.
 */
module NameParser {
  import opened PyText
  import opened Records

  function FirstNameKey(prefix: string): string { prefix + "_first_name" }
  function MiddleNameKey(prefix: string): string { prefix + "_middle_name" }
  function LastNameKey(prefix: string): string { prefix + "_last_name" }

  /** The three keys `parse_name` writes. */
  function NameKeys(prefix: string): set<string>
  {
    {FirstNameKey(prefix), MiddleNameKey(prefix), LastNameKey(prefix)}
  }

  /** The guard `data.get(key)`: the key is present and its value is not empty. */
  predicate HasName(m: Record, key: string)
  {
    key in m && m[key] != ""
  }

  /** The last name: the text before the first ", ". */
  function Surname(name: string): string
  {
    Split(name, ", ")[0]
  }

  /** The given names: the words after the first ", ", split on " ", or none
      when there is no ", ". */
  function GivenNames(name: string): seq<string>
  {
    var nameParts := Split(name, ", ");
    if |nameParts| > 1 then Split(nameParts[1], " ") else []
  }

  /** The record after `parse_name(data, key, prefix)`. */
  function WithParsedName(m: Record, key: string, prefix: string): Record
  {
    if !HasName(m, key) then m
    else
      m[FirstNameKey(prefix) := TokenOr(GivenNames(m[key]), 0)]
       [MiddleNameKey(prefix) := TokenOr(GivenNames(m[key]), 1)]
       [LastNameKey(prefix) := Surname(m[key])]
  }

  /** `parse_name` on the record object. */
  method ParseName(rec: CaseRecord, key: string, prefix: string)
    modifies rec
    ensures rec.data == WithParsedName(old(rec.data), key, prefix)
  {
    if key in rec.data && rec.data[key] != "" {
      var nameParts := Split(rec.data[key], ", ");
      var firstMiddle := if |nameParts| > 1 then Split(nameParts[1], " ") else [];
      rec.data := rec.data[FirstNameKey(prefix) := TokenOr(firstMiddle, 0)];
      rec.data := rec.data[MiddleNameKey(prefix) := TokenOr(firstMiddle, 1)];
      rec.data := rec.data[LastNameKey(prefix) := nameParts[0]];
    }
  }

  /** With a non-empty name under `key`, the three name keys hold its parts. */
  lemma ParsedNameValues(m: Record, key: string, prefix: string)
    requires HasName(m, key)
    ensures var r := WithParsedName(m, key, prefix);
            FirstNameKey(prefix) in r && r[FirstNameKey(prefix)] == TokenOr(GivenNames(m[key]), 0) &&
            MiddleNameKey(prefix) in r && r[MiddleNameKey(prefix)] == TokenOr(GivenNames(m[key]), 1) &&
            LastNameKey(prefix) in r && r[LastNameKey(prefix)] == Surname(m[key])
  {
    NameKeysDistinct(prefix);
  }

  /** Without a non-empty name under `key`, nothing changes; with one, the
      three name keys are added, and every other key keeps its old state. */
  lemma ParsedNameKeys(m: Record, key: string, prefix: string)
    ensures var r := WithParsedName(m, key, prefix);
            (!HasName(m, key) ==> r == m) &&
            (HasName(m, key) ==> r.Keys == m.Keys + NameKeys(prefix)) &&
            forall k :: k !in NameKeys(prefix) ==> SameAt(r, m, k)
  {
  }

  /** The three name keys are distinct, so none of the writes hides another. */
  lemma NameKeysDistinct(prefix: string)
    ensures FirstNameKey(prefix) != MiddleNameKey(prefix)
    ensures FirstNameKey(prefix) != LastNameKey(prefix)
    ensures MiddleNameKey(prefix) != LastNameKey(prefix)
  {
    assert |FirstNameKey(prefix)| == |prefix| + 11;
    assert |MiddleNameKey(prefix)| == |prefix| + 12;
    assert |LastNameKey(prefix)| == |prefix| + 10;
  }

  /** Each name key has a fixed length beyond its prefix and starts with the
      prefix's first two characters; this is what tells name keys apart from
      the fixed field keys. */
  lemma NameKeyShape(prefix: string)
    requires |prefix| >= 2
    ensures |FirstNameKey(prefix)| == |prefix| + 11
    ensures |MiddleNameKey(prefix)| == |prefix| + 12
    ensures |LastNameKey(prefix)| == |prefix| + 10
    ensures FirstNameKey(prefix)[0] == prefix[0] && FirstNameKey(prefix)[1] == prefix[1]
    ensures MiddleNameKey(prefix)[0] == prefix[0] && MiddleNameKey(prefix)[1] == prefix[1]
    ensures LastNameKey(prefix)[0] == prefix[0] && LastNameKey(prefix)[1] == prefix[1]
  {
  }

  lemma JoinStartsWithHead(parts: seq<string>, sep: string)
    requires |parts| >= 1
    ensures StartsWith(Join(parts, sep), parts[0])
  {
    if |parts| > 1 {
      var s := Join(parts, sep);
      assert s == parts[0] + (sep + Join(parts[1..], sep));
      assert s[..|parts[0]|] == parts[0];
    }
  }

  /** The last name is the text before the first ", ": the stored name starts
      with it. */
  lemma LastNameIsPrefix(m: Record, key: string, prefix: string)
    requires HasName(m, key)
    ensures var r := WithParsedName(m, key, prefix);
            LastNameKey(prefix) in r && StartsWith(m[key], r[LastNameKey(prefix)])
  {
    NameKeysDistinct(prefix);
    var parts := Split(m[key], ", ");
    SplitJoin(m[key], ", ");
    JoinStartsWithHead(parts, ", ");
  }

  /** A name without a comma is all last name; first and middle are empty. */
  lemma NameWithoutComma(m: Record, key: string, prefix: string)
    requires HasName(m, key) && ',' !in m[key]
    ensures var r := WithParsedName(m, key, prefix);
            r[LastNameKey(prefix)] == m[key] &&
            r[FirstNameKey(prefix)] == "" && r[MiddleNameKey(prefix)] == ""
  {
    NameKeysDistinct(prefix);
    SplitWithoutSeparator(m[key], ", ");
  }

  /** Parsing inverts the court's formatting: "LAST, FIRST MIDDLE" built from
      a comma-free last name and two words without commas or spaces gives the
      three parts back. */
  lemma NameRoundTrip(m: Record, key: string, prefix: string, last: string, first: string, middle: string)
    requires ',' !in last && ',' !in first && ',' !in middle
    requires ' ' !in first && ' ' !in middle
    requires key in m && m[key] == last + ", " + first + " " + middle
    ensures var r := WithParsedName(m, key, prefix);
            r[LastNameKey(prefix)] == last &&
            r[FirstNameKey(prefix)] == first && r[MiddleNameKey(prefix)] == middle
  {
    NameKeysDistinct(prefix);
    var given := first + " " + middle;
    assert m[key] == last + ", " + given;
    SplitLeading(last, ", ", given);
    assert ',' !in given;
    SplitWithoutSeparator(given, ", ");
    SplitLeading(first, " ", middle);
    SplitWithoutSeparator(middle, " ");
  }

  /** "LAST, FIRST" has no middle name. */
  lemma NameWithoutMiddle(m: Record, key: string, prefix: string, last: string, first: string)
    requires ',' !in last && ',' !in first && ' ' !in first
    requires key in m && m[key] == last + ", " + first
    ensures var r := WithParsedName(m, key, prefix);
            r[LastNameKey(prefix)] == last &&
            r[FirstNameKey(prefix)] == first && r[MiddleNameKey(prefix)] == ""
  {
    NameKeysDistinct(prefix);
    SplitLeading(last, ", ", first);
    SplitWithoutSeparator(first, ", ");
    SplitWithoutSeparator(first, " ");
  }
}
