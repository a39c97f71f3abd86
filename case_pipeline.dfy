/**
  `process_case_data` and `process_all_cases`: for each probate case number,
  visit the estate detail page, the fiduciary list and, for every fiduciary
  row, its fiduciary and attorney detail pages, collecting one flat record.
 */
module CasePipeline {
  import opened PyText
  import opened Browser
  import opened Records
  import opened FieldExtractor
  import opened NameParser

  // ---------------------------------------------------------------------------
  // Pages

  /** The address prefixes of the court's four page kinds; each page address
      is a prefix followed by the case number, ";;" and, for the detail
      pages, the row index. The addresses are opaque: nothing parses them. */
  datatype Portal = Portal(caseDetail: string, fiduciaryList: string,
                           fiduciaryDetail: string, attorneyDetail: string)

  /** The Franklin County probate court site the scraper visits. */
  const FRANKLIN_PROBATE: Portal := Portal(
    "http://probatesearch.franklincountyohio.gov/netdata/PBCaseTypeE.ndm/ESTATE_DETAIL?caseno=",
    "https://probatesearch.franklincountyohio.gov/netdata/PBFidy.ndm/input?caseno=",
    "https://probatesearch.franklincountyohio.gov/netdata/PBFidDetail.ndm/FID_DETAIL?caseno=",
    "https://probatesearch.franklincountyohio.gov/netdata/PBAttyDetail.ndm/ATTY_DETAIL?caseno=")

  function CaseUrl(p: Portal, caseId: string): string
  {
    p.caseDetail + caseId + ";;"
  }

  function AdminUrl(p: Portal, caseId: string): string
  {
    p.fiduciaryList + caseId + ";;"
  }

  /** The detail page of fiduciary row `i`. */
  function FiduciaryUrl(p: Portal, caseId: string, i: nat): string
  {
    p.fiduciaryDetail + caseId + ";;" + NatToString(i)
  }

  /** The attorney detail page of fiduciary row `i`. */
  function AttorneyUrl(p: Portal, caseId: string, i: nat): string
  {
    p.attorneyDetail + caseId + ";;" + NatToString(i)
  }

  // ---------------------------------------------------------------------------
  // The fields read from each page; a locator is the row label its XPath matches.

  const CASE_FIELDS: seq<Field> := [
    Field("Case Name", "case_name"),
    Field("Case Subtype", "case_subtype"),
    Field("Decedent Street", "decendent_address"),
    Field("City", "decendent_city"),
    Field("State", "decendent_state"),
    Field("Zip", "decendent_zip")
  ]

  const ADMIN_FIELDS: seq<Field> := [
    Field("Estate Fiduciaries Name", "admin_name"),
    Field("Street", "admin_address"),
    Field("City", "admin_city"),
    Field("State", "admin_state"),
    Field("Zip", "admin_zip"),
    Field("Phone Number", "admin_phone")
  ]

  const ATTORNEY_FIELDS: seq<Field> := [
    Field("Attorney Name", "attorney_name"),
    Field("Phone Number", "attorney_phone"),
    Field("E-mail Address", "attorney_email")
  ]

  const CASE_FIELD_KEYS: set<string> := {
    "case_name", "case_subtype", "decendent_address", "decendent_city", "decendent_state", "decendent_zip"
  }

  const ADMIN_FIELD_KEYS: set<string> := {
    "admin_name", "admin_address", "admin_city", "admin_state", "admin_zip", "admin_phone"
  }

  const ATTORNEY_FIELD_KEYS: set<string> := {"attorney_name", "attorney_phone", "attorney_email"}

  /** Every key the estate detail page stage may write. */
  const CASE_KEYS: set<string> := CASE_FIELD_KEYS + NameKeys("decendent")

  /** Every key a fiduciary detail page may write. */
  const ADMIN_KEYS: set<string> := ADMIN_FIELD_KEYS + NameKeys("admin")

  /** Every key an attorney detail page may write. */
  const ATTORNEY_KEYS: set<string> := ATTORNEY_FIELD_KEYS + NameKeys("attorney")

  /** The field lists write only the keys listed above. */
  lemma FieldListKeys()
    ensures FieldKeys(CASE_FIELDS) <= CASE_FIELD_KEYS
    ensures FieldKeys(ADMIN_FIELDS) <= ADMIN_FIELD_KEYS
    ensures FieldKeys(ATTORNEY_FIELDS) <= ATTORNEY_FIELD_KEYS
  {
  }

  /** The three pages write pairwise disjoint keys. */
  lemma CaseAdminKeysDisjoint()
    ensures CASE_KEYS !! ADMIN_KEYS
  {
    NameKeyShape("decendent");
    NameKeyShape("admin");
  }

  lemma CaseAttorneyKeysDisjoint()
    ensures CASE_KEYS !! ATTORNEY_KEYS
  {
    NameKeyShape("decendent");
    NameKeyShape("attorney");
  }

  lemma AdminAttorneyKeysDisjoint()
    ensures ADMIN_KEYS !! ATTORNEY_KEYS
  {
    NameKeyShape("admin");
    NameKeyShape("attorney");
  }

  /** The name keys of a detail page are not among its field keys. */
  lemma NameKeysApartFromFields()
    ensures ADMIN_FIELD_KEYS !! NameKeys("admin") && ATTORNEY_FIELD_KEYS !! NameKeys("attorney")
  {
    NameKeyShape("admin");
    NameKeyShape("attorney");
  }

  /** The keys the pipeline writes itself. */
  const PIPELINE_KEYS: set<string> := {"caseno", "case_url", "view_state_link"}

  /** The keys the pipeline writes itself are written by no page. */
  lemma PipelineKeysApart()
    ensures PIPELINE_KEYS !! CASE_KEYS
    ensures PIPELINE_KEYS !! ADMIN_KEYS
    ensures PIPELINE_KEYS !! ATTORNEY_KEYS
  {
    NameKeyShape("decendent");
    NameKeyShape("admin");
    NameKeyShape("attorney");
  }

  // ---------------------------------------------------------------------------
  // The stages

  /** The record as it stands once the case page has been asked for. */
  function CaseStart(p: Portal, caseId: string): Record
  {
    map["caseno" := caseId, "case_url" := CaseUrl(p, caseId)]
  }

  /** The estate detail page: its fields, then the decedent's name. */
  function CaseStage(p: Portal, m: Record, d: Driver, caseId: string): Record
  {
    WithParsedName(ApplyFields(m, d, CaseUrl(p, caseId), CASE_FIELDS), "case_name", "decendent")
  }

  /** The admin block of fiduciary row `i`; a failed navigation skips it. */
  function AdminBlock(p: Portal, m: Record, d: Driver, caseId: string, i: nat): Record
  {
    var url := FiduciaryUrl(p, caseId, i);
    if !d.navigate(url) then m
    else WithParsedName(ApplyFields(m, d, url, ADMIN_FIELDS), "admin_name", "admin")
  }

  /** The attorney block of fiduciary row `i`; a failed navigation skips it. */
  function AttorneyBlock(p: Portal, m: Record, d: Driver, caseId: string, i: nat): Record
  {
    var url := AttorneyUrl(p, caseId, i);
    if !d.navigate(url) then m
    else WithParsedName(ApplyFields(m, d, url, ATTORNEY_FIELDS), "attorney_name", "attorney")
  }

  /** The record after fiduciary rows `0 .. n-1`, each an admin block then an
      attorney block. */
  function FiduciaryRows(p: Portal, m: Record, d: Driver, caseId: string, n: nat): Record
  {
    if n == 0 then m
    else
      var before := FiduciaryRows(p, m, d, caseId, n - 1);
      AttorneyBlock(p, AdminBlock(p, before, d, caseId, n - 1), d, caseId, n - 1)
  }

  /** The fiduciary list: a failed navigation returns the record as it is;
      otherwise the list page is recorded under `view_state_link` and, unless
      its table never appears, every row is visited. */
  function AdminStage(p: Portal, m: Record, d: Driver, caseId: string): Record
  {
    var url := AdminUrl(p, caseId);
    if !d.navigate(url) then m
    else
      var withLink := m["view_state_link" := url];
      match d.rows(url)
      case RowsTimeout => withLink
      case Rows(n) => FiduciaryRows(p, withLink, d, caseId, n)
  }

  /** The record `process_case_data(chrome, case)` returns. A failed visit
      of the case page records `case_url` only when it raised a
      `WebDriverException`; any other exception reaches the outer handler,
      which returns the record as it stood, holding `caseno` alone. */
  function CaseData(p: Portal, caseId: string, d: Driver): Record
  {
    if caseId == "" then map[]
    else
      var c := Strip(caseId);
      if !d.navigate(CaseUrl(p, c)) then
        if d.webDriverError(CaseUrl(p, c)) then CaseStart(p, c) else map["caseno" := c]
      else AdminStage(p, CaseStage(p, CaseStart(p, c), d, c), d, c)
  }

  // ---------------------------------------------------------------------------
  // Frames: which keys each stage can touch

  /** The case page stage touches only `CASE_KEYS`. */
  lemma CaseStageFrame(p: Portal, m: Record, d: Driver, caseId: string, k: string)
    requires k !in CASE_KEYS
    ensures SameAt(CaseStage(p, m, d, caseId), m, k)
  {
    FieldListKeys();
    ApplyFieldsElsewhere(m, d, CaseUrl(p, caseId), CASE_FIELDS, k);
    ParsedNameKeys(ApplyFields(m, d, CaseUrl(p, caseId), CASE_FIELDS), "case_name", "decendent");
  }

  /** The case page stage adds no key outside `CASE_KEYS`. */
  lemma CaseStageKeys(p: Portal, m: Record, d: Driver, caseId: string)
    ensures CaseStage(p, m, d, caseId).Keys <= m.Keys + CASE_KEYS
  {
    FieldListKeys();
    ApplyFieldsKeys(m, d, CaseUrl(p, caseId), CASE_FIELDS);
    ParsedNameKeys(ApplyFields(m, d, CaseUrl(p, caseId), CASE_FIELDS), "case_name", "decendent");
  }

  lemma AdminBlockFrame(p: Portal, m: Record, d: Driver, caseId: string, i: nat, k: string)
    requires k !in ADMIN_KEYS
    ensures SameAt(AdminBlock(p, m, d, caseId, i), m, k)
  {
    FieldListKeys();
    var url := FiduciaryUrl(p, caseId, i);
    if d.navigate(url) {
      ApplyFieldsElsewhere(m, d, url, ADMIN_FIELDS, k);
      ParsedNameKeys(ApplyFields(m, d, url, ADMIN_FIELDS), "admin_name", "admin");
    }
  }

  lemma AttorneyBlockFrame(p: Portal, m: Record, d: Driver, caseId: string, i: nat, k: string)
    requires k !in ATTORNEY_KEYS
    ensures SameAt(AttorneyBlock(p, m, d, caseId, i), m, k)
  {
    FieldListKeys();
    var url := AttorneyUrl(p, caseId, i);
    if d.navigate(url) {
      ApplyFieldsElsewhere(m, d, url, ATTORNEY_FIELDS, k);
      ParsedNameKeys(ApplyFields(m, d, url, ATTORNEY_FIELDS), "attorney_name", "attorney");
    }
  }

  /** The fiduciary loop touches only admin and attorney keys. */
  lemma {:induction false} FiduciaryRowsFrame(p: Portal, m: Record, d: Driver, caseId: string, n: nat, k: string)
    requires k !in ADMIN_KEYS && k !in ATTORNEY_KEYS
    ensures SameAt(FiduciaryRows(p, m, d, caseId, n), m, k)
  {
    if n > 0 {
      var before := FiduciaryRows(p, m, d, caseId, n - 1);
      FiduciaryRowsFrame(p, m, d, caseId, n - 1, k);
      AdminBlockFrame(p, before, d, caseId, n - 1, k);
      AttorneyBlockFrame(p, AdminBlock(p, before, d, caseId, n - 1), d, caseId, n - 1, k);
    }
  }

  /** The fiduciary list stage keeps every key that is neither an admin nor an
      attorney key nor `view_state_link`. */
  lemma AdminStageFrame(p: Portal, m: Record, d: Driver, caseId: string, k: string)
    requires k !in ADMIN_KEYS && k !in ATTORNEY_KEYS && k != "view_state_link"
    ensures SameAt(AdminStage(p, m, d, caseId), m, k)
  {
    var url := AdminUrl(p, caseId);
    if d.navigate(url) && d.rows(url).Rows? {
      FiduciaryRowsFrame(p, m["view_state_link" := url], d, caseId, d.rows(url).count, k);
    }
  }

  // ---------------------------------------------------------------------------
  // Properties of a case record

  /** A non-empty case number gives a record holding the stripped number under
      `caseno`, whatever the browser does, and the case page under `case_url`
      unless its visit failed with an exception other than a
      `WebDriverException`. */
  lemma CaseNumberKept(p: Portal, caseId: string, d: Driver)
    requires caseId != ""
    ensures var r := CaseData(p, caseId, d); var c := Strip(caseId);
            "caseno" in r && r["caseno"] == c
    ensures var r := CaseData(p, caseId, d); var url := CaseUrl(p, Strip(caseId));
            ("case_url" in r <==> d.navigate(url) || d.webDriverError(url)) &&
            ("case_url" in r ==> r["case_url"] == url)
  {
    PipelineKeysApart();
    var c := Strip(caseId);
    if d.navigate(CaseUrl(p, c)) {
      var withCase := CaseStage(p, CaseStart(p, c), d, c);
      CaseStageFrame(p, CaseStart(p, c), d, c, "caseno");
      CaseStageFrame(p, CaseStart(p, c), d, c, "case_url");
      AdminStageFrame(p, withCase, d, c, "caseno");
      AdminStageFrame(p, withCase, d, c, "case_url");
    }
  }

  /** When the case page cannot be opened, the record holds `caseno` and
      `case_url` after a `WebDriverException`, and `caseno` alone after any
      other exception. */
  lemma CaseNavigationFailure(p: Portal, caseId: string, d: Driver)
    requires caseId != "" && !d.navigate(CaseUrl(p, Strip(caseId)))
    ensures d.webDriverError(CaseUrl(p, Strip(caseId))) ==>
              CaseData(p, caseId, d).Keys == {"caseno", "case_url"}
    ensures !d.webDriverError(CaseUrl(p, Strip(caseId))) ==>
              CaseData(p, caseId, d) == map["caseno" := Strip(caseId)]
  {
  }

  /** The fiduciary list stage records `view_state_link` exactly when its page opens. */
  lemma AdminStageLink(p: Portal, m: Record, d: Driver, c: string)
    requires "view_state_link" !in m
    ensures var r := AdminStage(p, m, d, c);
            ("view_state_link" in r <==> d.navigate(AdminUrl(p, c))) &&
            ("view_state_link" in r ==> r["view_state_link"] == AdminUrl(p, c))
  {
    var url := AdminUrl(p, c);
    if d.navigate(url) && d.rows(url).Rows? {
      PipelineKeysApart();
      FiduciaryRowsFrame(p, m["view_state_link" := url], d, c, d.rows(url).count, "view_state_link");
    }
  }

  /** `view_state_link` is present exactly when both the case page and the
      fiduciary list page were opened, and then it names the list page. */
  lemma ViewStateLinkIff(p: Portal, caseId: string, d: Driver)
    ensures var r := CaseData(p, caseId, d); var c := Strip(caseId);
            ("view_state_link" in r <==> caseId != "" && d.navigate(CaseUrl(p, c)) && d.navigate(AdminUrl(p, c))) &&
            ("view_state_link" in r ==> r["view_state_link"] == AdminUrl(p, c))
  {
    if caseId != "" {
      var c := Strip(caseId);
      var start := CaseStart(p, c);
      assert "view_state_link" !in start;
      if d.navigate(CaseUrl(p, c)) {
        PipelineKeysApart();
        CaseStageFrame(p, start, d, c, "view_state_link");
        AdminStageLink(p, CaseStage(p, start, d, c), d, c);
      }
    }
  }

  lemma DisjointFromBoth(r: set<string>, a: set<string>, b: set<string>, c: set<string>)
    requires r <= a + b && a !! c && b !! c
    ensures r !! c
  {
  }

  /** If the fiduciary list page fails to open or its table never appears,
      the record carries no admin and no attorney key. */
  lemma AdminFailureNoAdminKeys(p: Portal, caseId: string, d: Driver)
    requires caseId != ""
    requires !d.navigate(AdminUrl(p, Strip(caseId))) || d.rows(AdminUrl(p, Strip(caseId))).RowsTimeout?
    ensures var r := CaseData(p, caseId, d);
            r.Keys !! ADMIN_KEYS && r.Keys !! ATTORNEY_KEYS
  {
    var r := CaseData(p, caseId, d);
    var c := Strip(caseId);
    var start := CaseStart(p, c);
    assert start.Keys <= PIPELINE_KEYS;
    if d.navigate(CaseUrl(p, c)) {
      CaseStageKeys(p, start, d, c);
    }
    assert r.Keys <= PIPELINE_KEYS + CASE_KEYS;
    PipelineKeysApart();
    CaseAdminKeysDisjoint();
    CaseAttorneyKeysDisjoint();
    DisjointFromBoth(r.Keys, PIPELINE_KEYS, CASE_KEYS, ADMIN_KEYS);
    DisjointFromBoth(r.Keys, PIPELINE_KEYS, CASE_KEYS, ATTORNEY_KEYS);
  }

  /** No page lists a key twice. */
  lemma FieldListsDistinct()
    ensures DistinctKeys(ADMIN_FIELDS) && DistinctKeys(ATTORNEY_FIELDS)
  {
  }

  /** An admin block writes each admin field whose lookup did not fail
      otherwise than by timeout. */
  lemma AdminBlockField(p: Portal, m: Record, d: Driver, caseId: string, i: nat, j: int)
    requires d.navigate(FiduciaryUrl(p, caseId, i)) && 0 <= j < |ADMIN_FIELDS|
    requires !d.locate(FiduciaryUrl(p, caseId, i), ADMIN_FIELDS[j].locator).OtherError?
    ensures var r := AdminBlock(p, m, d, caseId, i); var k := ADMIN_FIELDS[j].key;
            k in r && r[k] == WrittenValue(d.locate(FiduciaryUrl(p, caseId, i), ADMIN_FIELDS[j].locator))
            && k in ADMIN_KEYS
  {
    var url := FiduciaryUrl(p, caseId, i);
    AdminPageShape();
    FieldListKeys();
    NameKeysApartFromFields();
    assert ADMIN_FIELDS[j] in ADMIN_FIELDS;
    ApplyFieldsDistinct(m, d, url, ADMIN_FIELDS, j);
    ParsedNameKeys(ApplyFields(m, d, url, ADMIN_FIELDS), "admin_name", "admin");
  }

  /** Every admin field whose lookup on the last fiduciary row's page did not
      fail otherwise than by timeout holds what that page showed, whatever
      earlier rows wrote. */
  lemma LastFiduciaryWins(p: Portal, m: Record, d: Driver, caseId: string, n: nat, j: int)
    requires n > 0 && d.navigate(FiduciaryUrl(p, caseId, n - 1)) && 0 <= j < |ADMIN_FIELDS|
    requires !d.locate(FiduciaryUrl(p, caseId, n - 1), ADMIN_FIELDS[j].locator).OtherError?
    ensures var r := FiduciaryRows(p, m, d, caseId, n); var k := ADMIN_FIELDS[j].key;
            k in r && r[k] == WrittenValue(d.locate(FiduciaryUrl(p, caseId, n - 1), ADMIN_FIELDS[j].locator))
  {
    var admin := AdminBlock(p, FiduciaryRows(p, m, d, caseId, n - 1), d, caseId, n - 1);
    AdminBlockField(p, FiduciaryRows(p, m, d, caseId, n - 1), d, caseId, n - 1, j);
    AttorneyBlockKeepsAdmin(p, admin, d, caseId, n - 1);
  }

  /** Likewise for the attorney fields of the last row's attorney page. */
  lemma LastAttorneyWins(p: Portal, m: Record, d: Driver, caseId: string, n: nat, j: int)
    requires n > 0 && d.navigate(AttorneyUrl(p, caseId, n - 1)) && 0 <= j < |ATTORNEY_FIELDS|
    requires !d.locate(AttorneyUrl(p, caseId, n - 1), ATTORNEY_FIELDS[j].locator).OtherError?
    ensures var r := FiduciaryRows(p, m, d, caseId, n); var k := ATTORNEY_FIELDS[j].key;
            k in r && r[k] == WrittenValue(d.locate(AttorneyUrl(p, caseId, n - 1), ATTORNEY_FIELDS[j].locator))
  {
    var url := AttorneyUrl(p, caseId, n - 1);
    var before := AdminBlock(p, FiduciaryRows(p, m, d, caseId, n - 1), d, caseId, n - 1);
    FieldListsDistinct();
    FieldListKeys();
    NameKeysApartFromFields();
    assert ATTORNEY_FIELDS[j] in ATTORNEY_FIELDS;
    ApplyFieldsDistinct(before, d, url, ATTORNEY_FIELDS, j);
    ParsedNameKeys(ApplyFields(before, d, url, ATTORNEY_FIELDS), "attorney_name", "attorney");
  }

  /** The three name keys of `prefix` hold the parts of `name`. */
  predicate NamesFrom(r: Record, prefix: string, name: string)
  {
    FirstNameKey(prefix) in r && r[FirstNameKey(prefix)] == TokenOr(GivenNames(name), 0) &&
    MiddleNameKey(prefix) in r && r[MiddleNameKey(prefix)] == TokenOr(GivenNames(name), 1) &&
    LastNameKey(prefix) in r && r[LastNameKey(prefix)] == Surname(name)
  }

  /** A detail page whose name lookup shows a non-empty name `t`: the name key
      holds the stripped `t` and the three name keys its parts. */
  lemma PageName(m: Record, d: Driver, url: string, fields: seq<Field>, nameKey: string, prefix: string, t: string)
    requires DistinctKeys(fields) && |fields| > 0 && fields[0].key == nameKey
    requires nameKey !in NameKeys(prefix)
    requires d.locate(url, fields[0].locator) == Found(t) && Strip(t) != ""
    ensures var r := WithParsedName(ApplyFields(m, d, url, fields), nameKey, prefix);
            nameKey in r && r[nameKey] == Strip(t) && NamesFrom(r, prefix, Strip(t))
  {
    var withFields := ApplyFields(m, d, url, fields);
    ApplyFieldsDistinct(m, d, url, fields, 0);
    ParsedNameValues(withFields, nameKey, prefix);
    ParsedNameKeys(withFields, nameKey, prefix);
  }

  /** A detail page whose name lookup timed out or shows only whitespace: the
      name key holds "" and the three name keys are left as they were. */
  lemma PageNameMissing(m: Record, d: Driver, url: string, fields: seq<Field>, nameKey: string, prefix: string)
    requires DistinctKeys(fields) && |fields| > 0 && fields[0].key == nameKey
    requires nameKey !in NameKeys(prefix) && NameKeys(prefix) !! FieldKeys(fields)
    requires var o := d.locate(url, fields[0].locator); o.Timeout? || (o.Found? && Strip(o.text) == "")
    ensures var r := WithParsedName(ApplyFields(m, d, url, fields), nameKey, prefix);
            nameKey in r && r[nameKey] == "" && forall k :: k in NameKeys(prefix) ==> SameAt(r, m, k)
  {
    var withFields := ApplyFields(m, d, url, fields);
    ApplyFieldsDistinct(m, d, url, fields, 0);
    forall k | k in NameKeys(prefix) ensures SameAt(withFields, m, k) {
      ApplyFieldsElsewhere(m, d, url, fields, k);
    }
  }

  lemma SubsetApart(a: set<string>, b: set<string>, c: set<string>)
    requires a <= b && b !! c
    ensures a !! c
  {
  }

  /** The facts about the admin page's field list that the name lemmas use. */
  lemma AdminPageShape()
    ensures DistinctKeys(ADMIN_FIELDS) && |ADMIN_FIELDS| > 0 && ADMIN_FIELDS[0].key == "admin_name"
    ensures "admin_name" !in NameKeys("admin") && NameKeys("admin") !! FieldKeys(ADMIN_FIELDS)
    ensures "admin_name" in ADMIN_KEYS && NameKeys("admin") <= ADMIN_KEYS
  {
    FieldListsDistinct();
    FieldListKeys();
    NameKeysApartFromFields();
    SubsetApart(FieldKeys(ADMIN_FIELDS), ADMIN_FIELD_KEYS, NameKeys("admin"));
    SubsetApart({"admin_name"}, ADMIN_FIELD_KEYS, NameKeys("admin"));
  }

  /** The facts about the attorney page's field list that the name lemmas use. */
  lemma AttorneyPageShape()
    ensures DistinctKeys(ATTORNEY_FIELDS) && |ATTORNEY_FIELDS| > 0 && ATTORNEY_FIELDS[0].key == "attorney_name"
    ensures "attorney_name" !in NameKeys("attorney") && NameKeys("attorney") !! FieldKeys(ATTORNEY_FIELDS)
    ensures NameKeys("attorney") <= ATTORNEY_KEYS
  {
    FieldListsDistinct();
    FieldListKeys();
    NameKeysApartFromFields();
    SubsetApart(FieldKeys(ATTORNEY_FIELDS), ATTORNEY_FIELD_KEYS, NameKeys("attorney"));
    SubsetApart({"attorney_name"}, ATTORNEY_FIELD_KEYS, NameKeys("attorney"));
  }

  /** The attorney block leaves every admin key alone. */
  lemma AttorneyBlockKeepsAdmin(p: Portal, m: Record, d: Driver, caseId: string, i: nat)
    ensures forall k :: k in ADMIN_KEYS ==> SameAt(AttorneyBlock(p, m, d, caseId, i), m, k)
  {
    AdminAttorneyKeysDisjoint();
    forall k | k in ADMIN_KEYS ensures SameAt(AttorneyBlock(p, m, d, caseId, i), m, k) {
      AttorneyBlockFrame(p, m, d, caseId, i, k);
    }
  }

  /** The admin block leaves every attorney key alone. */
  lemma AdminBlockKeepsAttorney(p: Portal, m: Record, d: Driver, caseId: string, i: nat)
    ensures forall k :: k in ATTORNEY_KEYS ==> SameAt(AdminBlock(p, m, d, caseId, i), m, k)
  {
    AdminAttorneyKeysDisjoint();
    forall k | k in ATTORNEY_KEYS ensures SameAt(AdminBlock(p, m, d, caseId, i), m, k) {
      AdminBlockFrame(p, m, d, caseId, i, k);
    }
  }

  /** An admin block whose name lookup shows a non-empty name `t`. */
  lemma AdminBlockName(p: Portal, m: Record, d: Driver, caseId: string, i: nat, t: string)
    requires d.navigate(FiduciaryUrl(p, caseId, i))
    requires d.locate(FiduciaryUrl(p, caseId, i), ADMIN_FIELDS[0].locator) == Found(t) && Strip(t) != ""
    ensures var r := AdminBlock(p, m, d, caseId, i);
            "admin_name" in r && r["admin_name"] == Strip(t) && NamesFrom(r, "admin", Strip(t))
  {
    AdminPageShape();
    PageName(m, d, FiduciaryUrl(p, caseId, i), ADMIN_FIELDS, "admin_name", "admin", t);
  }

  /** An admin block whose name lookup timed out or shows only whitespace. */
  lemma AdminBlockNameMissing(p: Portal, m: Record, d: Driver, caseId: string, i: nat)
    requires d.navigate(FiduciaryUrl(p, caseId, i))
    requires var o := d.locate(FiduciaryUrl(p, caseId, i), ADMIN_FIELDS[0].locator);
             o.Timeout? || (o.Found? && Strip(o.text) == "")
    ensures var r := AdminBlock(p, m, d, caseId, i);
            "admin_name" in r && r["admin_name"] == "" &&
            forall k :: k in NameKeys("admin") ==> SameAt(r, m, k)
  {
    AdminPageShape();
    PageNameMissing(m, d, FiduciaryUrl(p, caseId, i), ADMIN_FIELDS, "admin_name", "admin");
  }

  /** When the last fiduciary row's page shows a non-empty name, the admin
      name keys hold its parts. */
  lemma LastFiduciaryName(p: Portal, m: Record, d: Driver, caseId: string, n: nat, t: string)
    requires n > 0 && d.navigate(FiduciaryUrl(p, caseId, n - 1))
    requires d.locate(FiduciaryUrl(p, caseId, n - 1), ADMIN_FIELDS[0].locator) == Found(t) && Strip(t) != ""
    ensures var r := FiduciaryRows(p, m, d, caseId, n);
            "admin_name" in r && r["admin_name"] == Strip(t) && NamesFrom(r, "admin", Strip(t))
  {
    var admin := AdminBlock(p, FiduciaryRows(p, m, d, caseId, n - 1), d, caseId, n - 1);
    AdminBlockName(p, FiduciaryRows(p, m, d, caseId, n - 1), d, caseId, n - 1, t);
    AttorneyBlockKeepsAdmin(p, admin, d, caseId, n - 1);
    AdminPageShape();
  }

  /** When the last fiduciary row's name lookup timed out or shows only
      whitespace, `admin_name` is "" while the admin name keys keep what the
      rows before wrote: the output mixes rows. */
  lemma LastFiduciaryNameMissing(p: Portal, m: Record, d: Driver, caseId: string, n: nat)
    requires n > 0 && d.navigate(FiduciaryUrl(p, caseId, n - 1))
    requires var o := d.locate(FiduciaryUrl(p, caseId, n - 1), ADMIN_FIELDS[0].locator);
             o.Timeout? || (o.Found? && Strip(o.text) == "")
    ensures var r := FiduciaryRows(p, m, d, caseId, n);
            var before := FiduciaryRows(p, m, d, caseId, n - 1);
            "admin_name" in r && r["admin_name"] == "" &&
            forall k :: k in NameKeys("admin") ==> SameAt(r, before, k)
  {
    var before := FiduciaryRows(p, m, d, caseId, n - 1);
    var admin := AdminBlock(p, before, d, caseId, n - 1);
    AdminBlockNameMissing(p, before, d, caseId, n - 1);
    AttorneyBlockKeepsAdmin(p, admin, d, caseId, n - 1);
    AdminPageShape();
    var r := FiduciaryRows(p, m, d, caseId, n);
    forall k | k in NameKeys("admin") ensures SameAt(r, before, k) {
      assert SameAt(r, admin, k) && SameAt(admin, before, k);
    }
  }

  /** An attorney block whose name lookup shows a non-empty name `t`. */
  lemma AttorneyBlockName(p: Portal, m: Record, d: Driver, caseId: string, i: nat, t: string)
    requires d.navigate(AttorneyUrl(p, caseId, i))
    requires d.locate(AttorneyUrl(p, caseId, i), ATTORNEY_FIELDS[0].locator) == Found(t) && Strip(t) != ""
    ensures var r := AttorneyBlock(p, m, d, caseId, i);
            "attorney_name" in r && r["attorney_name"] == Strip(t) && NamesFrom(r, "attorney", Strip(t))
  {
    AttorneyPageShape();
    PageName(m, d, AttorneyUrl(p, caseId, i), ATTORNEY_FIELDS, "attorney_name", "attorney", t);
  }

  /** When the last row's attorney page shows a non-empty name, the attorney
      name keys hold its parts. */
  lemma LastAttorneyName(p: Portal, m: Record, d: Driver, caseId: string, n: nat, t: string)
    requires n > 0 && d.navigate(AttorneyUrl(p, caseId, n - 1))
    requires d.locate(AttorneyUrl(p, caseId, n - 1), ATTORNEY_FIELDS[0].locator) == Found(t) && Strip(t) != ""
    ensures var r := FiduciaryRows(p, m, d, caseId, n);
            "attorney_name" in r && r["attorney_name"] == Strip(t) && NamesFrom(r, "attorney", Strip(t))
  {
    AttorneyBlockName(p, AdminBlock(p, FiduciaryRows(p, m, d, caseId, n - 1), d, caseId, n - 1), d, caseId, n - 1, t);
  }

  /** An attorney block whose name lookup timed out or shows only whitespace:
      `attorney_name` is "" and the attorney name keys are left as they were. */
  lemma AttorneyBlockNameMissing(p: Portal, m: Record, d: Driver, caseId: string, i: nat)
    requires d.navigate(AttorneyUrl(p, caseId, i))
    requires var o := d.locate(AttorneyUrl(p, caseId, i), ATTORNEY_FIELDS[0].locator);
             o.Timeout? || (o.Found? && Strip(o.text) == "")
    ensures var r := AttorneyBlock(p, m, d, caseId, i);
            "attorney_name" in r && r["attorney_name"] == "" &&
            forall k :: k in NameKeys("attorney") ==> SameAt(r, m, k)
  {
    AttorneyPageShape();
    PageNameMissing(m, d, AttorneyUrl(p, caseId, i), ATTORNEY_FIELDS, "attorney_name", "attorney");
  }

  /** When the last row's attorney name lookup timed out or shows only
      whitespace, `attorney_name` is "" while the attorney name keys keep what
      the rows before wrote. */
  lemma LastAttorneyNameMissing(p: Portal, m: Record, d: Driver, caseId: string, n: nat)
    requires n > 0 && d.navigate(AttorneyUrl(p, caseId, n - 1))
    requires var o := d.locate(AttorneyUrl(p, caseId, n - 1), ATTORNEY_FIELDS[0].locator);
             o.Timeout? || (o.Found? && Strip(o.text) == "")
    ensures var r := FiduciaryRows(p, m, d, caseId, n);
            var before := FiduciaryRows(p, m, d, caseId, n - 1);
            "attorney_name" in r && r["attorney_name"] == "" &&
            forall k :: k in NameKeys("attorney") ==> SameAt(r, before, k)
  {
    var before := FiduciaryRows(p, m, d, caseId, n - 1);
    var admin := AdminBlock(p, before, d, caseId, n - 1);
    AttorneyBlockNameMissing(p, admin, d, caseId, n - 1);
    AdminBlockKeepsAttorney(p, before, d, caseId, n - 1);
    AttorneyPageShape();
    var r := FiduciaryRows(p, m, d, caseId, n);
    forall k | k in NameKeys("attorney") ensures SameAt(r, before, k) {
      assert SameAt(r, admin, k) && SameAt(admin, before, k);
    }
  }

  // ---------------------------------------------------------------------------
  // The procedures

  /** The estate detail page stage, on the record object. */
  method ReadCasePage(p: Portal, d: Driver, caseId: string, caseData: CaseRecord)
    modifies caseData
    ensures caseData.data == CaseStage(p, old(caseData.data), d, caseId)
  {
    ExtractFields(d, CaseUrl(p, caseId), CASE_FIELDS, caseData);
    ParseName(caseData, "case_name", "decendent");
  }

  /** One pass of the fiduciary loop: the admin block, then the attorney
      block, each skipped when its page cannot be opened. */
  method ReadFiduciaryRow(p: Portal, d: Driver, caseId: string, i: nat, caseData: CaseRecord)
    modifies caseData
    ensures caseData.data == AttorneyBlock(p, AdminBlock(p, old(caseData.data), d, caseId, i), d, caseId, i)
  {
    var fiduciaryUrl := FiduciaryUrl(p, caseId, i);
    if d.navigate(fiduciaryUrl) {
      ExtractFields(d, fiduciaryUrl, ADMIN_FIELDS, caseData);
      ParseName(caseData, "admin_name", "admin");
    }
    var attorneyUrl := AttorneyUrl(p, caseId, i);
    if d.navigate(attorneyUrl) {
      ExtractFields(d, attorneyUrl, ATTORNEY_FIELDS, caseData);
      ParseName(caseData, "attorney_name", "attorney");
    }
  }

  /** The fiduciary list stage, on the record object. */
  method ReadFiduciaries(p: Portal, d: Driver, caseId: string, caseData: CaseRecord)
    modifies caseData
    ensures caseData.data == AdminStage(p, old(caseData.data), d, caseId)
  {
    var adminUrl := AdminUrl(p, caseId);
    if !d.navigate(adminUrl) {
      return;
    }
    caseData.data := caseData.data["view_state_link" := adminUrl];
    var admins := d.rows(adminUrl);
    if admins.RowsTimeout? {
      return;
    }
    ghost var withLink := caseData.data;
    for i := 0 to admins.count
      invariant caseData.data == FiduciaryRows(p, withLink, d, caseId, i)
    {
      ReadFiduciaryRow(p, d, caseId, i, caseData);
    }
  }

  /** `process_case_data(chrome, case)`. */
  method ProcessCaseData(p: Portal, d: Driver, caseId: string) returns (r: Record)
    ensures r == CaseData(p, caseId, d)
  {
    if caseId == "" {
      return map[];
    }
    var c := Strip(caseId);
    var caseData := new CaseRecord(map["caseno" := c]);
    var caseUrl := CaseUrl(p, c);
    if !d.navigate(caseUrl) {
      if d.webDriverError(caseUrl) {
        caseData.data := caseData.data["case_url" := caseUrl];
      }
      return caseData.data;
    }
    caseData.data := caseData.data["case_url" := caseUrl];
    ReadCasePage(p, d, c, caseData);
    ReadFiduciaries(p, d, c, caseData);
    return caseData.data;
  }

  /** `process_all_cases(chrome, cases)`: one record per case, in order. */
  method ProcessAllCases(p: Portal, d: Driver, cases: seq<string>) returns (all: seq<Record>)
    ensures |all| == |cases|
    ensures forall i :: 0 <= i < |cases| ==> all[i] == CaseData(p, cases[i], d)
  {
    all := [];
    for i := 0 to |cases|
      invariant |all| == i
      invariant forall j :: 0 <= j < i ==> all[j] == CaseData(p, cases[j], d)
    {
      var caseData := ProcessCaseData(p, d, cases[i]);
      all := all + [caseData];
    }
  }
}
