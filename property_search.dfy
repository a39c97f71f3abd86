/**
  `search_and_get_case_data(driver, case_data)`: looks the decedent's address
  up on the county auditor's property search and copies the parcel number,
  the dwelling data and the last transfer into the case record. Every wait is
  answered by the site oracle; the decision logic (which outcome stops the
  search, which writes a value, which returns `None`) is modelled exactly.
 */
module PropertySearch {
  import opened Optional
  import opened PyText
  import opened Browser
  import opened Records
  import opened AddressParser
  import opened FieldExtractor

  const ADDRESS_KEY := "decendent_address"
  const PARCEL_KEY := "parcel_id"

  // Opaque names for the waits of one search, one per XPath of the source.
  const NUMBER_INPUT := "inpNumber"
  const STREET_INPUT := "inpStreet"
  const SEARCH_BUTTON := "btSearch"
  const NO_RECORDS := "no records banner"
  const FIRST_ROW := "first result row"

  const PARCEL_FIELD := Field("DataletHeaderTopLeft", PARCEL_KEY)

  /** The dwelling table cells, in the order the source's dictionary lists them. */
  const DWELLING_FIELDS := [Field("Dwelling Data 10", "bedrooms"),
                            Field("Dwelling Data 11", "bathrooms"),
                            Field("Dwelling Data 8", "Tot Fin Area"),
                            Field("Dwelling Data 7", "Year built")]

  const TRANSFER_FIELDS := [Field("Transfer Date", "Transfer Date"),
                           Field("Transfer Price", "Transfer Price")]

  /** Every `extract_data` call of one search, in order. */
  const PROPERTY_FIELDS := [PARCEL_FIELD] + DWELLING_FIELDS + TRANSFER_FIELDS

  const PROPERTY_KEYS: set<string> :=
    {"parcel_id", "bedrooms", "bathrooms", "Tot Fin Area", "Year built", "Transfer Date", "Transfer Price"}

  /** What a search that finds no records merges into the record. */
  const PLACEHOLDERS: Record :=
    map["beds" := "N/A", "bathrooms" := "N/A", "Tot Fin Area" := "N/A",
        "Yr Built" := "N/A", "transfer date" := "N/A", "transfer price" := "N/A"]

  /** `fill_input` does not raise: its field timed out (which it catches), or
      the field was found and a real string was typed into it (typing `None`
      raises, as does any other failure). */
  predicate FillSucceeds(o: Lookup, value: Option<string>)
  {
    o.Timeout? || (o.Found? && value.Some?)
  }

  /** The value `extract_data` writes for field `f`, or `None` when it raises
      out of the search: a non-timeout failure, or a parcel header without a
      ':' (indexing the second field of the split raises). */
  function DataValue(f: Field, o: Lookup): Option<string>
  {
    match o
    case Timeout => Some("")
    case OtherError => None
    case Found(text) =>
      if f.key == PARCEL_KEY then
        var parts := Split(text, ":");
        if |parts| < 2 then None else Some(Strip(parts[1]))
      else Some(Strip(text))
  }

  /** How far the `extract_data` calls got: still running with the record so
      far, or stopped by an exception with the record as it was then. */
  datatype Progress = Running(record: Record) | Stopped(record: Record)

  function Step(p: Progress, site: PropertySite, f: Field): Progress
  {
    match p
    case Stopped(_) => p
    case Running(r) =>
      match DataValue(f, site.locate(f.locator))
      case None => Stopped(r)
      case Some(v) => Running(r[f.key := v])
  }

  /** The `extract_data` calls for `fields`, in order, from record `m`. */
  function ExtractAll(m: Record, site: PropertySite, fields: seq<Field>): Progress
    decreases |fields|
  {
    if fields == [] then Running(m)
    else Step(ExtractAll(m, site, fields[..|fields| - 1]), site, fields[|fields| - 1])
  }

  /** What the search returns: `None` (only when the search button timed out)
      or the record object, together with the record's final state. */
  datatype SearchResult = SearchResult(returnedNone: bool, record: Record)

  /** The whole search on record `m`. Every path the outer `except Exception`
      catches returns the record as it stands at that point; a record without
      an address is one of them (the lookup raises `KeyError`). */
  function Search(m: Record, site: PropertySite): SearchResult
  {
    if ADDRESS_KEY !in m then SearchResult(false, m)
    else SearchAddress(m, site, ParseAddress(m[ADDRESS_KEY]))
  }

  /** The search for the parsed address `a`, up to the click on the search button. */
  function SearchAddress(m: Record, site: PropertySite, a: Address): SearchResult
  {
    if a.streetNo == "" && a.streetName == Some("") then SearchResult(false, m)
    else if !FillSucceeds(site.locate(NUMBER_INPUT), Some(a.streetNo)) then SearchResult(false, m)
    else if !FillSucceeds(site.locate(STREET_INPUT), a.streetName) then SearchResult(false, m)
    else
      match site.locate(SEARCH_BUTTON)
      case Timeout => SearchResult(true, m)
      case OtherError => SearchResult(false, m)
      case Found(_) => SearchResult(false, Results(m, site))
  }

  /** The record after the results page: the placeholders when nothing was
      found, otherwise the `extract_data` calls once the first row was clicked
      (or timed out). */
  function Results(m: Record, site: PropertySite): Record
  {
    match site.locate(NO_RECORDS)
    case Found(_) => m + PLACEHOLDERS
    case OtherError => m
    case Timeout =>
      if site.locate(FIRST_ROW).OtherError? then m
      else ExtractAll(m, site, PROPERTY_FIELDS).record
  }

  // ---------------------------------------------------------------------------
  // The extraction steps

  /** Running the calls of `a` and then those of `b` is running `a + b`. */
  lemma {:induction false} ExtractAllAppend(m: Record, site: PropertySite, a: seq<Field>, b: seq<Field>)
    ensures ExtractAll(m, site, a + b) ==
            match ExtractAll(m, site, a)
            case Stopped(r) => Stopped(r)
            case Running(r) => ExtractAll(r, site, b)
    decreases |b|
  {
    if b == [] {
      assert a + b == a;
    } else {
      var n := |b| - 1;
      assert (a + b)[..|a + b| - 1] == a + b[..n];
      assert (a + b)[|a + b| - 1] == b[n];
      ExtractAllAppend(m, site, a, b[..n]);
    }
  }

  /** A key none of the calls names keeps its old state, stopped or not. */
  lemma {:induction false} ExtractAllFrame(m: Record, site: PropertySite, fields: seq<Field>, k: string)
    requires k !in FieldKeys(fields)
    ensures SameAt(ExtractAll(m, site, fields).record, m, k)
    decreases |fields|
  {
    if fields != [] {
      var before := fields[..|fields| - 1];
      assert fields[|fields| - 1] in fields;
      assert FieldKeys(before) <= FieldKeys(fields) by {
        forall f | f in before ensures f in fields { }
      }
      ExtractAllFrame(m, site, before, k);
    }
  }

  /** The calls add no key other than the ones they name. */
  lemma {:induction false} ExtractAllKeys(m: Record, site: PropertySite, fields: seq<Field>)
    ensures ExtractAll(m, site, fields).record.Keys <= m.Keys + FieldKeys(fields)
    decreases |fields|
  {
    if fields != [] {
      var before := fields[..|fields| - 1];
      assert fields[|fields| - 1] in fields;
      assert FieldKeys(before) <= FieldKeys(fields) by {
        forall f | f in before ensures f in fields { }
      }
      ExtractAllKeys(m, site, before);
    }
  }

  /** Appending one call is one more step. */
  lemma ExtractAllSnoc(m: Record, site: PropertySite, a: seq<Field>, f: Field)
    ensures ExtractAll(m, site, a + [f]) == Step(ExtractAll(m, site, a), site, f)
  {
    assert (a + [f])[..|a|] == a;
  }

  /** Once an exception has stopped the calls, the later ones change nothing. */
  lemma StoppedStays(m: Record, site: PropertySite, a: seq<Field>, b: seq<Field>)
    requires ExtractAll(m, site, a).Stopped?
    ensures ExtractAll(m, site, a + b) == ExtractAll(m, site, a)
  {
    ExtractAllAppend(m, site, a, b);
  }

  /** The call for `f` does not raise. */
  predicate Writes(site: PropertySite, f: Field)
  {
    DataValue(f, site.locate(f.locator)).Some?
  }

  function ValueOf(site: PropertySite, f: Field): string
    requires Writes(site, f)
  {
    DataValue(f, site.locate(f.locator)).value
  }

  /** When no call raises, the calls run to the end and write every key they name. */
  lemma {:induction false} ExtractAllRuns(m: Record, site: PropertySite, fields: seq<Field>)
    requires forall f :: f in fields ==> Writes(site, f)
    ensures ExtractAll(m, site, fields).Running?
    ensures ExtractAll(m, site, fields).record.Keys == m.Keys + FieldKeys(fields)
    decreases |fields|
  {
    if fields != [] {
      var n := |fields| - 1;
      var before := fields[..n];
      assert fields == before + [fields[n]];
      assert forall f :: f in before ==> f in fields;
      assert fields[n] in fields;
      ExtractAllRuns(m, site, before);
      assert FieldKeys(fields) == FieldKeys(before) + {fields[n].key};
    }
  }

  /** A call that does not raise writes its value under its key. */
  lemma StepWrites(p: Progress, site: PropertySite, f: Field)
    requires p.Running? && Writes(site, f)
    ensures Step(p, site, f) == Running(p.record[f.key := ValueOf(site, f)])
  {
  }

  /** The preconditions of `ExtractAllValues` carry over to a prefix. */
  lemma PrefixWrites(site: PropertySite, fields: seq<Field>, n: int)
    requires DistinctKeys(fields) && forall f :: f in fields ==> Writes(site, f)
    requires 0 <= n <= |fields|
    ensures DistinctKeys(fields[..n]) && forall f :: f in fields[..n] ==> Writes(site, f)
  {
    var before := fields[..n];
    forall f | f in before ensures Writes(site, f) {
      assert f in fields;
    }
    forall i, i' | 0 <= i < i' < n ensures before[i].key != before[i'].key {
      assert before[i] == fields[i] && before[i'] == fields[i'];
    }
  }

  /** When no call raises and the keys are distinct, each key holds the value
      its own lookup gave. */
  lemma {:induction false} ExtractAllValues(m: Record, site: PropertySite, fields: seq<Field>, j: int)
    requires DistinctKeys(fields) && forall f :: f in fields ==> Writes(site, f)
    requires 0 <= j < |fields|
    ensures var r := ExtractAll(m, site, fields).record;
            fields[j].key in r && r[fields[j].key] == ValueOf(site, fields[j])
    decreases |fields|
  {
    var n := |fields| - 1;
    var before := fields[..n];
    var last := fields[n];
    PrefixWrites(site, fields, n);
    assert last in fields;
    ExtractAllRuns(m, site, before);
    var prev := ExtractAll(m, site, before);
    StepWrites(prev, site, last);
    if j < n {
      assert before[j] == fields[j];
      ExtractAllValues(m, site, before, j);
      assert fields[j].key != last.key;
    }
  }

  // ---------------------------------------------------------------------------
  // The search

  /** The search goes past the form: the address is present, has a street,
      both inputs were filled and the search button was clicked. */
  predicate Searched(m: Record, site: PropertySite)
  {
    ADDRESS_KEY in m && |StreetTokens(m[ADDRESS_KEY])| >= 2 &&
    var a := ParseAddress(m[ADDRESS_KEY]);
    FillSucceeds(site.locate(NUMBER_INPUT), Some(a.streetNo)) &&
    FillSucceeds(site.locate(STREET_INPUT), a.streetName) &&
    site.locate(SEARCH_BUTTON).Found?
  }

  /** The search reaches the `extract_data` calls: results were listed and
      the first row did not raise. */
  predicate Extracting(m: Record, site: PropertySite)
  {
    Searched(m, site) && site.locate(NO_RECORDS).Timeout? && !site.locate(FIRST_ROW).OtherError?
  }

  /** A record without a decedent address is returned untouched and the
      search returns it, not `None`: the missing key raises inside the
      search, which catches it. */
  lemma MissingAddressUnsearched(m: Record, site: PropertySite)
    requires ADDRESS_KEY !in m
    ensures Search(m, site) == SearchResult(false, m)
  {
  }

  /** The search skips the site exactly when the street part of the address
      has fewer than two tokens, and then returns the record untouched. */
  lemma ShortStreetSkipsSearch(m: Record, site: PropertySite)
    requires ADDRESS_KEY in m
    ensures var a := ParseAddress(m[ADDRESS_KEY]);
            (a.streetNo == "" && a.streetName == Some("")) <==> |StreetTokens(m[ADDRESS_KEY])| < 2
    ensures |StreetTokens(m[ADDRESS_KEY])| < 2 ==> Search(m, site) == SearchResult(false, m)
  {
    EmptyStreetNumberIff(m[ADDRESS_KEY]);
  }

  /** Past the form, the search button has been clicked and the results page decides. */
  lemma SearchedResults(m: Record, site: PropertySite)
    requires Searched(m, site)
    ensures Search(m, site) == SearchResult(false, Results(m, site))
  {
    ShortStreetSkipsSearch(m, site);
  }

  /** The search returns `None` exactly when it got as far as the search
      button and the button timed out; the record is then unchanged. */
  lemma ReturnsNoneIff(m: Record, site: PropertySite)
    ensures Search(m, site).returnedNone <==>
            ADDRESS_KEY in m && |StreetTokens(m[ADDRESS_KEY])| >= 2 &&
            FillSucceeds(site.locate(NUMBER_INPUT), Some(ParseAddress(m[ADDRESS_KEY]).streetNo)) &&
            FillSucceeds(site.locate(STREET_INPUT), ParseAddress(m[ADDRESS_KEY]).streetName) &&
            site.locate(SEARCH_BUTTON).Timeout?
    ensures Search(m, site).returnedNone ==> Search(m, site).record == m
  {
    if ADDRESS_KEY in m {
      ShortStreetSkipsSearch(m, site);
    }
  }

  /** A search that finds no records merges exactly the six "N/A"
      placeholders and keeps every other key. */
  lemma NoRecordsPlaceholders(m: Record, site: PropertySite)
    requires Searched(m, site) && site.locate(NO_RECORDS).Found?
    ensures var r := Search(m, site);
            !r.returnedNone && r.record.Keys == m.Keys + PLACEHOLDERS.Keys &&
            (forall k :: k in PLACEHOLDERS ==> r.record[k] == "N/A") &&
            (forall k :: k !in PLACEHOLDERS ==> SameAt(r.record, m, k))
  {
    SearchedResults(m, site);
    assert Search(m, site).record == m + PLACEHOLDERS;
    MergeKeeps(m, PLACEHOLDERS);
    PlaceholdersAreNA();
  }

  /** `dict.update`: the merged record has the keys of both, the new values
      win and every other key keeps its state. */
  lemma MergeKeeps(m: Record, u: Record)
    ensures (m + u).Keys == m.Keys + u.Keys
    ensures forall k :: k in u ==> (m + u)[k] == u[k]
    ensures forall k :: k !in u ==> SameAt(m + u, m, k)
  {
  }

  lemma PlaceholdersAreNA()
    ensures forall k :: k in PLACEHOLDERS ==> PLACEHOLDERS[k] == "N/A"
  {
  }

  /** Results listed and the first row clicked: the `extract_data` calls decide. */
  lemma ExtractingCalls(m: Record, site: PropertySite)
    requires Extracting(m, site)
    ensures Search(m, site) == SearchResult(false, ExtractAll(m, site, PROPERTY_FIELDS).record)
  {
    SearchedResults(m, site);
  }

  /** The parcel call comes first: without a ':' it stops the calls on the
      untouched record; with one, its value survives every later call that
      names another key. */
  lemma ParcelFirst(m: Record, site: PropertySite, rest: seq<Field>, text: string)
    requires PARCEL_KEY !in FieldKeys(rest) && site.locate(PARCEL_FIELD.locator) == Found(text)
    ensures ':' !in text ==> ExtractAll(m, site, [PARCEL_FIELD] + rest) == Stopped(m)
    ensures ':' in text ==>
            |Split(text, ":")| >= 2 &&
            var r := ExtractAll(m, site, [PARCEL_FIELD] + rest).record;
            PARCEL_KEY in r && r[PARCEL_KEY] == Strip(Split(text, ":")[1])
  {
    SplitCountsSeparator(text, ':');
    ExtractAllSnoc(m, site, [], PARCEL_FIELD);
    assert [] + [PARCEL_FIELD] == [PARCEL_FIELD];
    ExtractAllAppend(m, site, [PARCEL_FIELD], rest);
    if ':' in text {
      ExtractAllFrame(m[PARCEL_KEY := Strip(Split(text, ":")[1])], site, rest, PARCEL_KEY);
    }
  }

  lemma ParcelComesFirst()
    ensures PROPERTY_FIELDS == [PARCEL_FIELD] + (DWELLING_FIELDS + TRANSFER_FIELDS)
    ensures PARCEL_KEY !in FieldKeys(DWELLING_FIELDS + TRANSFER_FIELDS)
  {
  }

  /** A parcel header without a ':' ends the search before anything is
      written; with one, the parcel number is the stripped text after it, and
      no later call can change it. */
  lemma ParcelNumber(m: Record, site: PropertySite, text: string)
    requires Extracting(m, site) && site.locate(PARCEL_FIELD.locator) == Found(text)
    ensures ':' !in text ==> Search(m, site) == SearchResult(false, m)
    ensures ':' in text ==>
            |Split(text, ":")| >= 2 &&
            var r := Search(m, site).record;
            PARCEL_KEY in r && r[PARCEL_KEY] == Strip(Split(text, ":")[1])
  {
    ExtractingCalls(m, site);
    ParcelComesFirst();
    ParcelFirst(m, site, DWELLING_FIELDS + TRANSFER_FIELDS, text);
  }

  lemma PropertyKeysDistinct()
    ensures DistinctKeys(PROPERTY_FIELDS)
  {
  }

  lemma PropertyKeysNamed()
    ensures FieldKeys(PROPERTY_FIELDS) <= PROPERTY_KEYS
  {
  }

  lemma PropertyKeysCovered()
    ensures PROPERTY_KEYS <= FieldKeys(PROPERTY_FIELDS)
  {
    assert PROPERTY_FIELDS[0].key == "parcel_id";
    assert PROPERTY_FIELDS[1].key == "bedrooms";
    assert PROPERTY_FIELDS[2].key == "bathrooms";
    assert PROPERTY_FIELDS[3].key == "Tot Fin Area";
    assert PROPERTY_FIELDS[4].key == "Year built";
    assert PROPERTY_FIELDS[5].key == "Transfer Date";
    assert PROPERTY_FIELDS[6].key == "Transfer Price";
  }

  /** When every call succeeds, all seven property keys are written, each
      with the value its own lookup gave, and nothing else is added. */
  lemma FullExtraction(m: Record, site: PropertySite)
    requires Extracting(m, site)
    requires forall f :: f in PROPERTY_FIELDS ==> Writes(site, f)
    ensures var r := Search(m, site);
            !r.returnedNone && r.record.Keys == m.Keys + PROPERTY_KEYS &&
            forall j :: 0 <= j < |PROPERTY_FIELDS| ==>
              PROPERTY_FIELDS[j].key in r.record &&
              r.record[PROPERTY_FIELDS[j].key] == ValueOf(site, PROPERTY_FIELDS[j])
  {
    ExtractingCalls(m, site);
    PropertyKeysDistinct();
    PropertyKeysNamed();
    PropertyKeysCovered();
    ExtractAllRuns(m, site, PROPERTY_FIELDS);
    forall j | 0 <= j < |PROPERTY_FIELDS|
      ensures var r := ExtractAll(m, site, PROPERTY_FIELDS).record;
              PROPERTY_FIELDS[j].key in r && r[PROPERTY_FIELDS[j].key] == ValueOf(site, PROPERTY_FIELDS[j])
    {
      ExtractAllValues(m, site, PROPERTY_FIELDS, j);
    }
  }

  /** The results page touches no key other than the property and placeholder keys. */
  lemma ResultsFrame(m: Record, site: PropertySite, k: string)
    requires k !in PROPERTY_KEYS && k !in PLACEHOLDERS
    ensures SameAt(Results(m, site), m, k)
  {
    PropertyKeysNamed();
    ExtractAllFrame(m, site, PROPERTY_FIELDS, k);
  }

  /** The search touches no key other than the property and placeholder keys. */
  lemma SearchFrame(m: Record, site: PropertySite, k: string)
    requires k !in PROPERTY_KEYS && k !in PLACEHOLDERS
    ensures SameAt(Search(m, site).record, m, k)
  {
    ResultsFrame(m, site, k);
  }

  /** The search adds no key other than the property and placeholder keys. */
  lemma SearchKeys(m: Record, site: PropertySite)
    ensures Search(m, site).record.Keys <= m.Keys + PROPERTY_KEYS + PLACEHOLDERS.Keys
  {
    PropertyKeysNamed();
    ExtractAllKeys(m, site, PROPERTY_FIELDS);
  }

  // ---------------------------------------------------------------------------
  // The imperative search on the record object

  /** `fill_input`: reports whether it raised. */
  method FillInput(site: PropertySite, locator: string, value: Option<string>) returns (raised: bool)
    ensures raised <==> !FillSucceeds(site.locate(locator), value)
  {
    match site.locate(locator) {
      case Timeout => raised := false;
      case OtherError => raised := true;
      case Found(_) => raised := value.None?;
    }
  }

  /** `extract_data`: one call on the record object, reporting whether it raised. */
  method ExtractData(site: PropertySite, f: Field, caseData: CaseRecord) returns (raised: bool)
    modifies caseData
    ensures Step(Running(old(caseData.data)), site, f) ==
            if raised then Stopped(caseData.data) else Running(caseData.data)
  {
    raised := false;
    match site.locate(f.locator) {
      case Timeout =>
        caseData.data := caseData.data[f.key := ""];
      case OtherError =>
        raised := true;
      case Found(text) =>
        if f.key == PARCEL_KEY {
          var parts := Split(text, ":");
          if |parts| < 2 {
            raised := true;
          } else {
            caseData.data := caseData.data[f.key := Strip(parts[1])];
          }
        } else {
          caseData.data := caseData.data[f.key := Strip(text)];
        }
    }
  }

  /** The `for` loop over the dwelling cells, ending at the first call that raises. */
  method ExtractEach(site: PropertySite, fields: seq<Field>, caseData: CaseRecord) returns (raised: bool)
    modifies caseData
    ensures ExtractAll(old(caseData.data), site, fields) ==
            if raised then Stopped(caseData.data) else Running(caseData.data)
  {
    ghost var start := caseData.data;
    raised := false;
    for i := 0 to |fields|
      invariant ExtractAll(start, site, fields[..i]) == Running(caseData.data)
    {
      assert fields[..i + 1] == fields[..i] + [fields[i]];
      ExtractAllSnoc(start, site, fields[..i], fields[i]);
      raised := ExtractData(site, fields[i], caseData);
      if raised {
        StoppedStays(start, site, fields[..i + 1], fields[i + 1..]);
        assert fields[..i + 1] + fields[i + 1..] == fields;
        return;
      }
    }
    assert fields[..|fields|] == fields;
  }

  /** The `extract_data` calls of one search; the first that raises ends the
      search, keeping what earlier calls wrote. */
  method ExtractProperty(site: PropertySite, caseData: CaseRecord)
    modifies caseData
    ensures caseData.data == ExtractAll(old(caseData.data), site, PROPERTY_FIELDS).record
  {
    ghost var start := caseData.data;
    var raised := ExtractData(site, PARCEL_FIELD, caseData);
    ExtractAllSnoc(start, site, [], PARCEL_FIELD);
    assert [] + [PARCEL_FIELD] == [PARCEL_FIELD];
    ExtractAllAppend(start, site, [PARCEL_FIELD], DWELLING_FIELDS);
    if !raised {
      raised := ExtractEach(site, DWELLING_FIELDS, caseData);
    }
    ghost var done := [PARCEL_FIELD] + DWELLING_FIELDS;
    var transferDate := TRANSFER_FIELDS[0];
    var transferPrice := TRANSFER_FIELDS[1];
    if !raised {
      raised := ExtractData(site, transferDate, caseData);
    }
    ExtractAllSnoc(start, site, done, transferDate);
    if !raised {
      raised := ExtractData(site, transferPrice, caseData);
    }
    ExtractAllSnoc(start, site, done + [transferDate], transferPrice);
    assert done + [transferDate] + [transferPrice] == PROPERTY_FIELDS;
  }

  /** `search_and_get_case_data(driver, case_data)` on the record object;
      `returnedNone` says whether it returned `None` instead of the record. */
  method SearchAndGetCaseData(site: PropertySite, caseData: CaseRecord) returns (returnedNone: bool)
    modifies caseData
    ensures SearchResult(returnedNone, caseData.data) == Search(old(caseData.data), site)
  {
    if ADDRESS_KEY !in caseData.data {
      return false;
    }
    var parsed := ParseAddress(caseData.data[ADDRESS_KEY]);
    if parsed.streetNo == "" && parsed.streetName == Some("") {
      return false;
    }
    var raised := FillInput(site, NUMBER_INPUT, Some(parsed.streetNo));
    if raised {
      return false;
    }
    raised := FillInput(site, STREET_INPUT, parsed.streetName);
    if raised {
      return false;
    }
    match site.locate(SEARCH_BUTTON) {
      case Timeout => return true;
      case OtherError => return false;
      case Found(_) =>
    }
    match site.locate(NO_RECORDS) {
      case Found(_) =>
        caseData.data := caseData.data + PLACEHOLDERS;
        return false;
      case OtherError => return false;
      case Timeout =>
    }
    if site.locate(FIRST_ROW).OtherError? {
      return false;
    }
    ExtractProperty(site, caseData);
    return false;
  }
}
