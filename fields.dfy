/**
  `extract_fields(chrome, fields, data)`: for each locator in turn, waits for
  its element on the current page and writes the element's stripped text
  under the locator's key; a timeout writes the empty string; any other
  error leaves the record alone and moves on to the next locator.
 */
module FieldExtractor {
  import opened PyText
  import opened Browser
  import opened Records

  /** A field locator: an opaque locator on the page and the record key its
      text is stored under. */
  datatype Field = Field(locator: string, key: string)

  function FieldKeys(fields: seq<Field>): set<string>
  {
    set f | f in fields :: f.key
  }

  /** The value a lookup writes: the stripped text, or "" on a timeout. */
  function WrittenValue(o: Lookup): string
    requires !o.OtherError?
  {
    if o.Found? then Strip(o.text) else ""
  }

  /** The record after one locator. */
  function ApplyField(m: Record, f: Field, o: Lookup): (r: Record)
    ensures r.Keys <= m.Keys + {f.key}
  {
    match o
    case Found(text) => m[f.key := Strip(text)]
    case Timeout => m[f.key := ""]
    case OtherError => m
  }

  /** The record after the locators of `fields`, applied in order on the page at `url`. */
  function ApplyFields(m: Record, d: Driver, url: string, fields: seq<Field>): Record
    decreases |fields|
  {
    if fields == [] then m
    else
      var last := fields[|fields| - 1];
      ApplyField(ApplyFields(m, d, url, fields[..|fields| - 1]), last, d.locate(url, last.locator))
  }

  /** `extract_fields` adds no key other than the declared ones. */
  lemma {:induction false} ApplyFieldsKeys(m: Record, d: Driver, url: string, fields: seq<Field>)
    ensures ApplyFields(m, d, url, fields).Keys <= m.Keys + FieldKeys(fields)
    decreases |fields|
  {
    if fields != [] {
      var before := fields[..|fields| - 1];
      ApplyFieldsKeys(m, d, url, before);
      assert FieldKeys(before) <= FieldKeys(fields) by {
        forall f | f in before ensures f in fields { }
      }
    }
  }

  /** Locator `j` decides key `k`: it names `k` and its lookup did not fail
      with a non-timeout error. */
  predicate Decides(d: Driver, url: string, fields: seq<Field>, j: int, k: string)
  {
    0 <= j < |fields| && fields[j].key == k && !d.locate(url, fields[j].locator).OtherError?
  }

  /** A key that no locator decides keeps its old state, possibly absent. */
  lemma {:induction false} ApplyFieldsUndecided(m: Record, d: Driver, url: string, fields: seq<Field>, k: string)
    requires forall j :: !Decides(d, url, fields, j, k)
    ensures SameAt(ApplyFields(m, d, url, fields), m, k)
    decreases |fields|
  {
    if fields != [] {
      var n := |fields| - 1;
      var before := fields[..n];
      assert !Decides(d, url, fields, n, k);
      forall j ensures !Decides(d, url, before, j, k) {
        if 0 <= j < n {
          assert before[j] == fields[j];
          assert !Decides(d, url, fields, j, k);
        }
      }
      ApplyFieldsUndecided(m, d, url, before, k);
    }
  }

  /** One locator that does not decide `k` leaves it as it was. */
  lemma ApplyFieldKeeps(m: Record, f: Field, o: Lookup, k: string)
    requires f.key != k || o.OtherError?
    ensures SameAt(ApplyField(m, f, o), m, k)
  {
  }

  /** The last locator that decides a key gives it its value: the stripped
      text on success, "" on a timeout, whatever earlier locators wrote. */
  lemma {:induction false} ApplyFieldsLastWins(m: Record, d: Driver, url: string, fields: seq<Field>,
                                               k: string, j: int)
    requires Decides(d, url, fields, j, k)
    requires forall j' :: j < j' ==> !Decides(d, url, fields, j', k)
    ensures var r := ApplyFields(m, d, url, fields);
            k in r && r[k] == WrittenValue(d.locate(url, fields[j].locator))
    decreases |fields|
  {
    var n := |fields| - 1;
    var before := fields[..n];
    var last := fields[n];
    if j < n {
      assert !Decides(d, url, fields, n, k);
      assert before[j] == fields[j];
      forall j' | j < j' ensures !Decides(d, url, before, j', k) {
        if j' < n {
          assert before[j'] == fields[j'];
          assert !Decides(d, url, fields, j', k);
        }
      }
      ApplyFieldsLastWins(m, d, url, before, k, j);
      ApplyFieldKeeps(ApplyFields(m, d, url, before), last, d.locate(url, last.locator), k);
    }
  }

  /** No two locators share a key. */
  predicate DistinctKeys(fields: seq<Field>)
  {
    forall i, j :: 0 <= i < j < |fields| ==> fields[i].key != fields[j].key
  }

  /** With distinct keys, a locator whose lookup did not fail otherwise than
      by timeout alone decides its key. */
  lemma ApplyFieldsDistinct(m: Record, d: Driver, url: string, fields: seq<Field>, j: int)
    requires DistinctKeys(fields) && 0 <= j < |fields|
    requires !d.locate(url, fields[j].locator).OtherError?
    ensures var r := ApplyFields(m, d, url, fields);
            fields[j].key in r && r[fields[j].key] == WrittenValue(d.locate(url, fields[j].locator))
  {
    var k := fields[j].key;
    forall j' | j < j' ensures !Decides(d, url, fields, j', k) {
      if j' < |fields| {
        assert fields[j].key != fields[j'].key;
      }
    }
    ApplyFieldsLastWins(m, d, url, fields, k, j);
  }

  /** A key no locator names keeps its old state. */
  lemma ApplyFieldsElsewhere(m: Record, d: Driver, url: string, fields: seq<Field>, k: string)
    requires k !in FieldKeys(fields)
    ensures SameAt(ApplyFields(m, d, url, fields), m, k)
  {
    forall j ensures !Decides(d, url, fields, j, k) {
      if 0 <= j < |fields| {
        assert fields[j] in fields;
      }
    }
    ApplyFieldsUndecided(m, d, url, fields, k);
  }

  /** The keys of a list are those of all but its last locator, and the last one's. */
  lemma FieldKeysSnoc(fields: seq<Field>)
    requires fields != []
    ensures FieldKeys(fields) == FieldKeys(fields[..|fields| - 1]) + {fields[|fields| - 1].key}
  {
    assert fields == fields[..|fields| - 1] + [fields[|fields| - 1]];
  }

  /** With no lookup failing other than by timeout, every declared key is
      present afterwards, and nothing else is added. */
  lemma {:induction false} ApplyFieldsComplete(m: Record, d: Driver, url: string, fields: seq<Field>)
    requires forall f :: f in fields ==> !d.locate(url, f.locator).OtherError?
    ensures ApplyFields(m, d, url, fields).Keys == m.Keys + FieldKeys(fields)
    decreases |fields|
  {
    if fields != [] {
      var n := |fields| - 1;
      var before := fields[..n];
      forall f | f in before ensures !d.locate(url, f.locator).OtherError? {
        assert f in fields;
      }
      assert fields[n] in fields;
      ApplyFieldsComplete(m, d, url, before);
      FieldKeysSnoc(fields);
    }
  }

  /** With no lookup failing other than by timeout, the final value of every
      declared key depends only on the page, not on what the record held
      before: a later extraction of the same fields overwrites an earlier one. */
  lemma {:induction false} ApplyFieldsOverwrites(m1: Record, m2: Record, d: Driver, url: string,
                                                 fields: seq<Field>, k: string)
    requires forall f :: f in fields ==> !d.locate(url, f.locator).OtherError?
    requires k in FieldKeys(fields)
    ensures var r1 := ApplyFields(m1, d, url, fields);
            var r2 := ApplyFields(m2, d, url, fields);
            k in r1 && k in r2 && r1[k] == r2[k]
    decreases |fields|
  {
    var n := |fields| - 1;
    var before := fields[..n];
    assert fields == before + [fields[n]];
    if fields[n].key != k {
      assert k in FieldKeys(before);
      forall f | f in before ensures f in fields { }
      ApplyFieldsOverwrites(m1, m2, d, url, before, k);
    }
  }

  /** `extract_fields(chrome, fields, rec.data)` with the browser on `url`. */
  method ExtractFields(d: Driver, url: string, fields: seq<Field>, rec: CaseRecord)
    modifies rec
    ensures rec.data == ApplyFields(old(rec.data), d, url, fields)
  {
    var i := 0;
    while i < |fields|
      invariant 0 <= i <= |fields|
      invariant rec.data == ApplyFields(old(rec.data), d, url, fields[..i])
    {
      var field := fields[i];
      match d.locate(url, field.locator) {
        case Found(text) => rec.data := rec.data[field.key := Strip(text)];
        case Timeout => rec.data := rec.data[field.key := ""];
        case OtherError =>
      }
      i := i + 1;
      assert fields[..i][..i - 1] == fields[..i - 1];
    }
    assert fields[..|fields|] == fields;
  }
}
