/**
  `parse_address`: splits a one-line postal address "street, city state zip"
  into street number, ordinal-normalised street name, city, state and ZIP.
 */
module AddressParser {
  import opened Optional
  import opened PyText
  import opened Ordinal

  /** The parsed address. `streetName` is `None` where the source leaves
      `street_name = None` (two street tokens, the second of length 0 or 1). */
  datatype Address = Address(streetNo: string, streetName: Option<string>,
                             city: string, state: string, zip: string)

  /** The sentinel for "no usable address": every field empty. */
  const NO_ADDRESS: Address := Address("", Some(""), "", "", "")

  /** The street tokens: the first comma field, stripped, split on single spaces. */
  function StreetTokens(address: string): (tokens: seq<string>)
    ensures |tokens| >= 1
  {
    Split(Strip(Split(address, ",")[0]), " ")
  }

  /** The city/state/ZIP tokens: the last comma field, stripped, split on
      single spaces; none when the address has no comma. */
  function StateTokens(address: string): seq<string>
  {
    var parts := Split(address, ",");
    if |parts| > 1 then Split(Strip(parts[|parts| - 1]), " ") else []
  }

  function ParseAddress(address: string): (a: Address)
  {
    var street := StreetTokens(address);
    var stateInfo := StateTokens(address);
    if |street| < 2 then NO_ADDRESS
    else
      var name :=
        if |street[1]| > 1 then Some(ExtractAndConvertOrdinal(street[1]))
        else if |street| > 2 then Some(ExtractAndConvertOrdinal(street[2]))
        else None;
      Address(street[0], name, TokenOr(stateInfo, 0), TokenOr(stateInfo, 1), TokenOr(stateInfo, 2))
  }

  /** The street number is empty exactly when the street has fewer than two
      tokens, and then the whole result is the all-empty sentinel. */
  lemma EmptyStreetNumberIff(address: string)
    ensures ParseAddress(address).streetNo == "" <==> |StreetTokens(address)| < 2
    ensures |StreetTokens(address)| < 2 ==> ParseAddress(address) == NO_ADDRESS
  {
    var stripped := Strip(Split(address, ",")[0]);
    if |stripped| > 0 {
      SplitFirstNonEmpty(stripped, ' ');
    }
  }

  /** The street name is missing exactly when there are two street tokens and
      the second is at most one character long. */
  lemma MissingStreetNameIff(address: string)
    ensures ParseAddress(address).streetName == None <==>
            |StreetTokens(address)| == 2 && |StreetTokens(address)[1]| <= 1
  {
  }

  /** Without a comma there is no city, state or ZIP. */
  lemma NoCommaNoCity(address: string)
    requires ',' !in address
    ensures var a := ParseAddress(address); a.city == "" && a.state == "" && a.zip == ""
  {
    SplitWithoutSeparator(address, ",");
  }

  predicate Plain(t: string)
  {
    t != [] && NoWs(t) && ',' !in t
  }

  lemma PlainHasNoSpace(t: string)
    requires Plain(t)
    ensures ' ' !in t
  {
  }

  lemma SplitWords(a: string, b: string)
    requires Plain(a) && Plain(b)
    ensures Split(a + " " + b, " ") == [a, b]
  {
    PlainHasNoSpace(a);
    PlainHasNoSpace(b);
    SplitLeading(a, " ", b);
    SplitWithoutSeparator(b, " ");
  }

  lemma SplitThreeWords(a: string, b: string, c: string)
    requires Plain(a) && Plain(b) && Plain(c)
    ensures Split(a + " " + b + " " + c, " ") == [a, b, c]
  {
    PlainHasNoSpace(a);
    assert a + " " + b + " " + c == a + " " + (b + " " + c);
    SplitLeading(a, " ", b + " " + c);
    SplitWords(b, c);
  }

  lemma CommaFreeJoin(a: string, b: string, c: string)
    requires ',' !in a && ',' !in b && ',' !in c
    ensures ',' !in a + " " + b + " " + c
  {
  }

  predicate NoEdgeWs(s: string)
  {
    s == [] || (!IsWs(s[0]) && !IsWs(s[|s| - 1]))
  }

  /** An address made of two comma-free fields joined by ", ": the street
      tokens come from the first, the city/state/ZIP tokens from the second. */
  lemma TwoFieldAddress(street: string, tail: string)
    requires ',' !in street && ',' !in tail
    requires NoEdgeWs(street) && NoEdgeWs(tail)
    ensures StreetTokens(street + ", " + tail) == Split(street, " ")
    ensures StateTokens(street + ", " + tail) == Split(tail, " ")
  {
    var address := street + ", " + tail;
    assert address == street + "," + (" " + tail);
    SplitLeading(street, ",", " " + tail);
    assert ',' !in " " + tail;
    SplitWithoutSeparator(" " + tail, ",");
    assert Split(address, ",") == [street, " " + tail];
    StripUnchanged(street);
    assert Strip(" " + tail) == tail by {
      assert LeadingWs(" " + tail) == 1;
      StripUnchanged(tail);
      assert (" " + tail)[1..] == tail;
    }
  }

  lemma ThreeWordsField(a: string, b: string, c: string)
    requires Plain(a) && Plain(b) && Plain(c)
    ensures ',' !in a + " " + b + " " + c && NoEdgeWs(a + " " + b + " " + c)
    ensures Split(a + " " + b + " " + c, " ") == [a, b, c]
  {
    CommaFreeJoin(a, b, c);
    SplitThreeWords(a, b, c);
  }

  lemma FourWordsField(a: string, b: string, c: string, d: string)
    requires Plain(a) && Plain(b) && Plain(c) && Plain(d)
    ensures ',' !in a + " " + b + " " + c + " " + d && NoEdgeWs(a + " " + b + " " + c + " " + d)
    ensures Split(a + " " + b + " " + c + " " + d, " ") == [a, b, c, d]
  {
    PlainHasNoSpace(a);
    assert a + " " + b + " " + c + " " + d == a + " " + (b + " " + c + " " + d);
    ThreeWordsField(b, c, d);
    SplitLeading(a, " ", b + " " + c + " " + d);
  }

  lemma TwoWordsField(a: string, b: string)
    requires Plain(a) && Plain(b)
    ensures ',' !in a + " " + b && NoEdgeWs(a + " " + b)
    ensures Split(a + " " + b, " ") == [a, b]
  {
    SplitWords(a, b);
  }

  /** Parsing inverts formatting: an address written as
      "<no> <name>, <city> <state> <zip>" from plain words, with a street name
      longer than one character, gives those words back, the street name
      normalised as an ordinal. */
  lemma ParseFormattedAddress(no: string, name: string, city: string, state: string, zip: string)
    requires Plain(no) && Plain(name) && Plain(city) && Plain(state) && Plain(zip)
    requires |name| > 1
    ensures ParseAddress(no + " " + name + ", " + city + " " + state + " " + zip)
            == Address(no, Some(ExtractAndConvertOrdinal(name)), city, state, zip)
  {
    TwoWordsField(no, name);
    ThreeWordsField(city, state, zip);
    TwoFieldAddress(no + " " + name, city + " " + state + " " + zip);
    assert no + " " + name + ", " + city + " " + state + " " + zip
           == (no + " " + name) + ", " + (city + " " + state + " " + zip);
  }

  /** The street-name rule skips a one-letter direction marker: for
      "<no> <d> <name> <kind>, <city> <state> <zip>" with `d` a single
      character, the street name is the ordinal form of `name`. */
  lemma ParseAddressWithDirection(no: string, d: string, name: string, kind: string,
                                  city: string, state: string, zip: string)
    requires Plain(no) && Plain(d) && Plain(name) && Plain(kind)
    requires Plain(city) && Plain(state) && Plain(zip)
    requires |d| == 1
    ensures ParseAddress(no + " " + d + " " + name + " " + kind + ", " + city + " " + state + " " + zip)
            == Address(no, Some(ExtractAndConvertOrdinal(name)), city, state, zip)
  {
    FourWordsField(no, d, name, kind);
    ThreeWordsField(city, state, zip);
    TwoFieldAddress(no + " " + d + " " + name + " " + kind, city + " " + state + " " + zip);
    assert no + " " + d + " " + name + " " + kind + ", " + city + " " + state + " " + zip
           == (no + " " + d + " " + name + " " + kind) + ", " + (city + " " + state + " " + zip);
  }

  /** A typical Franklin County address,
      "123 E 3RD AVE, Columbus OH 43215", given word by word. */
  lemma ParseAddressExample(no: string, d: string, name: string, kind: string,
                            city: string, state: string, zip: string)
    requires no == "123" && d == "E" && name == "3RD" && kind == "AVE"
    requires city == "Columbus" && state == "OH" && zip == "43215"
    ensures ParseAddress(no + " " + d + " " + name + " " + kind + ", " + city + " " + state + " " + zip)
            == Address("123", Some("Third"), "Columbus", "OH", "43215")
  {
    ParseAddressWithDirection(no, d, name, kind, city, state, zip);
    OrdinalExampleSuffix();
  }

  /** A single word, with no comma and no space, is not a usable address. */
  lemma ParseSingleWord(w: string)
    requires Plain(w)
    ensures ParseAddress(w) == NO_ADDRESS
  {
    SplitWithoutSeparator(w, ",");
    StripUnchanged(w);
    PlainHasNoSpace(w);
    SplitWithoutSeparator(w, " ");
  }

  lemma ParseSingleWordExample()
    ensures ParseAddress("NoStreetNumberOnly") == NO_ADDRESS
  {
    ParseSingleWord("NoStreetNumberOnly");
  }
}
