/**
  How the stages meet in the output rows: what the property search's
  placeholders and the case page's number become after
  `preprocess_case_data`.
 */
module CaseRows {
  import opened Optional
  import opened Records
  import opened PyText
  import opened Browser
  import opened CasePipeline
  import opened PropertySearch
  import opened RowProjector

  /** Column `j` of a row, read off by name. */
  lemma ColumnAt(item: Record, j: int, name: string, source: string)
    requires 0 <= j < |COLUMNS| && COLUMNS[j] == Column(name, source)
    ensures name in Project(item) && Project(item)[name] == Get(item, source)
  {
    ColumnsDistinct();
    ProjectColumnsValue(item, COLUMNS, j);
  }

  /** The placeholders win where they are set and leave the other keys alone. */
  lemma PlaceholderLookups(m: Record)
    ensures Get(m + PLACEHOLDERS, "bathrooms") == "N/A" && Get(m + PLACEHOLDERS, "Tot Fin Area") == "N/A"
    ensures Get(m + PLACEHOLDERS, "bedrooms") == Get(m, "bedrooms")
    ensures Get(m + PLACEHOLDERS, "Year built") == Get(m, "Year built")
    ensures Get(m + PLACEHOLDERS, "Transfer Date") == Get(m, "Transfer Date")
    ensures Get(m + PLACEHOLDERS, "Transfer Price") == Get(m, "Transfer Price")
  {
  }

  /** Of the six placeholders a search without records merges, only those
      under "bathrooms" and "Tot Fin Area" reach their columns; the "beds",
      "Yr Built", "transfer date" and "transfer price" columns are read from
      "bedrooms", "Year built", "Transfer Date" and "Transfer Price" and keep
      what the record held before the search. */
  lemma NoRecordsRow(m: Record)
    ensures var row := Project(m + PLACEHOLDERS);
            "bathrooms" in row && row["bathrooms"] == "N/A" &&
            "Tot Fin Area" in row && row["Tot Fin Area"] == "N/A" &&
            "beds" in row && row["beds"] == Get(m, "bedrooms") &&
            "Yr Built" in row && row["Yr Built"] == Get(m, "Year built") &&
            "transfer date" in row && row["transfer date"] == Get(m, "Transfer Date") &&
            "transfer price" in row && row["transfer price"] == Get(m, "Transfer Price")
  {
    var item := m + PLACEHOLDERS;
    PlaceholderLookups(m);
    ColumnAt(item, 25, "beds", "bedrooms");
    ColumnAt(item, 26, "bathrooms", "bathrooms");
    ColumnAt(item, 27, "Tot Fin Area", "Tot Fin Area");
    ColumnAt(item, 28, "Yr Built", "Year built");
    ColumnAt(item, 29, "transfer date", "Transfer Date");
    ColumnAt(item, 30, "transfer price", "Transfer Price");
  }

  /** What the main loop appends for a searched case: the search's return
      value, `None` when the search button timed out, else the record. */
  function SearchOutput(res: SearchResult): Option<Record>
  {
    if res.returnedNone then None else Some(res.record)
  }

  /** The one-case batch that row projection receives: no row when the
      search returned `None`, otherwise exactly the row of the record. */
  lemma SearchOutputRows(res: SearchResult)
    ensures res.returnedNone <==> ProjectAll([SearchOutput(res)]) == []
    ensures !res.returnedNone ==> ProjectAll([SearchOutput(res)]) == [Project(res.record)]
  {
    assert [SearchOutput(res)][..0] == [];
  }

  /** The `caseno` key of a record becomes its row's `case_num` column. */
  lemma CaseNumberRow(r: Record, c: string)
    requires "caseno" in r && r["caseno"] == c
    ensures "case_num" in Project(r) && Project(r)["case_num"] == c
  {
    ColumnAt(r, 0, "case_num", "caseno");
  }

  /** The property search keeps the stripped case number the court pages left. */
  lemma SearchedCaseNumber(p: Portal, caseId: string, d: Driver, site: PropertySite)
    requires caseId != ""
    ensures var r := Search(CaseData(p, caseId, d), site).record;
            "caseno" in r && r["caseno"] == Strip(caseId)
  {
    CaseNumberKept(p, caseId, d);
    SearchFrame(CaseData(p, caseId, d), site, "caseno");
  }

  /** The `case_url` key of a record becomes its row's `case_link` column. */
  lemma CaseLinkRow(r: Record)
    ensures "case_link" in Project(r) && Project(r)["case_link"] == Get(r, "case_url")
  {
    ColumnAt(r, 6, "case_link", "case_url");
  }

  /** The property search keeps what the court pages left under `case_url`. */
  lemma SearchedCaseUrl(p: Portal, caseId: string, d: Driver, site: PropertySite)
    requires caseId != ""
    ensures var url := CaseUrl(p, Strip(caseId));
            Get(Search(CaseData(p, caseId, d), site).record, "case_url") ==
              (if d.navigate(url) || d.webDriverError(url) then url else "")
  {
    CaseNumberKept(p, caseId, d);
    SearchFrame(CaseData(p, caseId, d), site, "case_url");
  }

  /** The `case_link` column holds the case page's address, or "" when the
      visit of that page failed with an exception other than a
      `WebDriverException`, whatever the property search does. */
  lemma CaseLinkColumn(p: Portal, caseId: string, d: Driver, site: PropertySite)
    requires caseId != ""
    ensures var url := CaseUrl(p, Strip(caseId));
            var row := Project(Search(CaseData(p, caseId, d), site).record);
            "case_link" in row &&
            row["case_link"] == (if d.navigate(url) || d.webDriverError(url) then url else "")
  {
    SearchedCaseUrl(p, caseId, d, site);
    CaseLinkRow(Search(CaseData(p, caseId, d), site).record);
  }

  /** A non-empty case number produces no output row when the property
      search returned `None`; otherwise it produces one row, and the number
      reaches its `case_num` column stripped, whatever the court pages and
      the rest of the property search do. */
  lemma CaseNumberColumn(p: Portal, caseId: string, d: Driver, site: PropertySite)
    requires caseId != ""
    ensures var res := Search(CaseData(p, caseId, d), site);
            var rows := ProjectAll([SearchOutput(res)]);
            (res.returnedNone <==> rows == []) &&
            (!res.returnedNone ==> |rows| == 1 && "case_num" in rows[0] && rows[0]["case_num"] == Strip(caseId))
  {
    var res := Search(CaseData(p, caseId, d), site);
    SearchOutputRows(res);
    SearchedCaseNumber(p, caseId, d, site);
    CaseNumberRow(res.record, Strip(caseId));
  }
}
