# Franklin County probate scraper: a verified model of its extraction core

The scraper visits the Franklin County (Ohio) probate court's web pages once
per probate case number and collects each case into one flat record:
- the estate page gives the decedent's name and address;
- the fiduciary list gives, for every fiduciary row, the administrator's
  details and the attorney's details.

It then searches each decedent's address on the county auditor's property
site and adds the parcel number, the dwelling data and the last transfer.
Finally it projects every record onto a fixed row of 31 output columns.

This project models that core in Dafny, from `Scraper.py`:
- the retry decorator;
- the text normalisers: ordinal street names, addresses and court-style
  names;
- the field extractor;
- the per-case pipeline and the loop over cases;
- the decision logic of the property search;
- the row projector.

The browser is an oracle. `Browser.Driver` says, for each page address,
whether navigating to it succeeds and, when it fails, whether it raised a
`WebDriverException` or some other exception. For each page and locator, it says what a
bounded wait for an element gives:
- `Found(text)`;
- `Timeout`;
- `OtherError`, which stands for any other exception.

It also says how many rows the fiduciary table has, or that the table timed
out. `Browser.PropertySite` plays the same part for the auditor's search
page. XPath expressions are replaced by short opaque locator names.

The Python dictionary that every stage mutates is `Records.CaseRecord`, a
class with one `map` field. The Python functions that mutate it are methods
with `modifies` clauses, each proved equal to a specification function of
the old state:
- `ExtractFields` / `ApplyFields`;
- `ParseName` / `WithParsedName`;
- `ProcessCaseData` / `CaseData`;
- `SearchAndGetCaseData` / `Search`.

The lemmas state what the source promises about those functions.

Modules, one per file:
- `PyText`: the Python string operations the code relies on (`strip`,
  `split(sep)`, `split()`, `isdigit`).
- `Ordinal`: `extract_and_convert_ordinal`.
- `AddressParser`: `parse_address`.
- `Retry`: `retries`.
- `Browser`, `Records` and `Optional`: the oracles, the record object and
  `None`.
- `FieldExtractor`: `extract_fields`.
- `NameParser`: `parse_name`.
- `CasePipeline`: `process_case_data` and `process_all_cases`.
- `PropertySearch`: `search_and_get_case_data`.
- `RowProjector`: `preprocess_case_data`.
- `CaseRows`: how the stages meet in the output row.

Behaviours of the code that the model makes explicit:
- When a lookup fails with anything other than a timeout, `extract_fields`
  writes nothing for its key and leaves it as it was: absent if it was
  absent, and holding its earlier value if the record already had one, as
  the fiduciary and attorney keys do on every row after the first
  (Scraper.py:148-149, 223-252; `FieldExtractor.ApplyFieldsUndecided`).
  When no such error occurs, every declared key is present afterwards
  (`FieldExtractor.ApplyFieldsComplete`).
- `extract_and_convert_ordinal` looks a bare number of three or more digits
  up by everything but its last two characters (Scraper.py:51-53). So "123"
  becomes "First" and "1234" becomes "Twelfth"; among those numbers, only
  ones such as "3100", whose leading digits are not in the table, pass
  through (`Ordinal.OrdinalOfLongNumber`). A bare one- or two-digit number
  is looked up as it is, so "21" becomes "Twenty First"
  (`Ordinal.OrdinalExampleBare`). When such a number is outside the table,
  like "31", it is also returned as it is (`Ordinal.OrdinalOutsideTable`).
- The retry decorator on `search_and_get_case_data` never retries: the
  function catches every exception itself (Scraper.py:292, 395-397).
- When the search button times out, `search_and_get_case_data` returns
  `None` (Scraper.py:322-324). The `__main__` block appends that `None`
  (Scraper.py:459) and `preprocess_case_data` skips it (Scraper.py:401-402),
  so such a case has no output row at all (`CaseRows.CaseNumberColumn`).
- A search that finds no records writes six "N/A" placeholders
  (Scraper.py:337-344). Only those under "bathrooms" and "Tot Fin Area"
  reach output columns. The "beds", "Yr Built", "transfer date" and
  "transfer price" columns are read from other keys (Scraper.py:405-437,
  `CaseRows.NoRecordsRow`).
- Every fiduciary row writes the same fiduciary and attorney keys
  (Scraper.py:223-252), so the last row's pages win key by key. When the
  last row's fiduciary name times out or is blank, `parse_name` writes
  nothing (Scraper.py:154), and the parsed name keys keep the values of an
  earlier row while the name itself is "" (`CasePipeline.LastFiduciaryNameMissing`,
  `CasePipeline.LastAttorneyNameMissing`). A record can thus mix rows.
- The visit to the estate page catches only `WebDriverException`
  (Scraper.py:179-186). Any other failure, such as a lost connection to the
  driver process, reaches the outer handler (Scraper.py:256-258), which returns
  the record holding `caseno` alone, so the `case_link` column reads ""
  (`CasePipeline.CaseNavigationFailure`, `CaseRows.CaseLinkColumn`). The other
  visits treat every exception alike.
- The output row has 31 columns (Scraper.py:405-437).

## Model

| member | source | states |
|---|---|---|
| Retry.Retry | Scraper.py:17-35 | with `max_retries <= 0` the operation is never called and the wrapper returns `None`; otherwise it makes between 1 and `max_retries` calls with one sleep between consecutive calls, every call but the last raised a retried exception, and the outcome is the last call's value, its non-retried exception, or its retried exception once `max_retries` calls have failed |
| PyText.Strip | Scraper.py:141 | the stripped text is a slice of the input with no whitespace at either end, and everything cut off is whitespace |
| PyText.StripIdempotent | Scraper.py:141 | stripping twice is stripping once |
| PyText.Split | Scraper.py:58 | `split(sep)` always yields at least one field |
| PyText.SplitJoin | Scraper.py:155 | joining the fields of `split(sep)` with `sep` gives back the text |
| PyText.SplitCountsSeparator | Scraper.py:365 | splitting on a one-character separator yields two or more fields exactly when the character occurs |
| PyText.NatToString | Scraper.py:225 | the decimal form of a row index is a digit string |
| PyText.SplitWs | Scraper.py:49 | every token of `split()` is non-empty and free of whitespace |
| PyText.SplitWsConcat | Scraper.py:49 | the tokens of `split()`, joined, are the text's non-whitespace characters in order |
| PyText.SplitWsOfToken | Scraper.py:49 | a non-empty text without whitespace is exactly one token |
| PyText.SplitWsAtWs | Scraper.py:49 | text on the two sides of a whitespace character is split separately, so no token spans whitespace and the tokens are maximal |
| Ordinal.ExtractAndConvertOrdinal | Scraper.py:38-54 | the result is the text itself, a word of the table, or one of the text's whitespace tokens |
| Ordinal.Convert | Scraper.py:52-53 | defines `number_to_words.get(key, word)` for a qualifying token; `OrdinalOfTableEntry`, `OrdinalOutsideTable` and `OrdinalOfLongNumber` are proved about it |
| Ordinal.FirstOrdinal | Scraper.py:49-54 | the first-match scan returns the whole text, a word of the table, or one of the tokens |
| Ordinal.OrdinalFirstMatch | Scraper.py:49-53 | the first token that is all digits, or digits followed by ST/ND/RD/TH, alone decides the result |
| Ordinal.OrdinalNoMatch | Scraper.py:49-54 | text without such a token comes back unchanged |
| Ordinal.TableKeysAreShortNumbers | Scraper.py:39-47 | the table's keys are digit strings of one or two digits |
| Ordinal.ShortNumberToken | Scraper.py:51-52 | a one- or two-digit number, bare or suffixed, is a qualifying token whose lookup key is the number itself |
| Ordinal.OrdinalOfTableEntry | Scraper.py:39-53 | every table number from 1 to 30, bare or with any of the four suffixes, becomes the table's word |
| Ordinal.OrdinalOutsideTable | Scraper.py:53 | a bare one- or two-digit number outside the table is returned as it is |
| Ordinal.OrdinalOfLongNumber | Scraper.py:51-53 | a bare number of three or more digits is looked up without its last two digits and returned unchanged when that prefix is not in the table |
| Ordinal.OrdinalExampleSuffix | Scraper.py:42-53 | "3RD" becomes "Third" |
| Ordinal.OrdinalExampleBare | Scraper.py:44-53 | "21" becomes "Twenty First" |
| Ordinal.OrdinalExampleLong | Scraper.py:40-53 | "123" becomes "First" |
| Ordinal.OrdinalExampleOutside | Scraper.py:49-53 | "31" is returned unchanged |
| AddressParser.ParseAddress | Scraper.py:56-91 | defines `parse_address`: street tokens from the part before the first comma, state tokens from the part after the last one; the properties below are proved about it |
| AddressParser.StreetTokens | Scraper.py:58-60 | the street part always has at least one token |
| AddressParser.StateTokens | Scraper.py:61-62 | defines the city, state and ZIP tokens: the last comma field, stripped and split on single spaces, or none without a comma, as read at Scraper.py:80-83; `NoCommaNoCity` and `ParseFormattedAddress` are proved about it |
| AddressParser.EmptyStreetNumberIff | Scraper.py:64-72 | the street number is empty exactly when the street part has fewer than two tokens, and then every field is empty |
| AddressParser.MissingStreetNameIff | Scraper.py:74-78 | the street name is `None` exactly when the street part has two tokens and the second is at most one character long |
| AddressParser.NoCommaNoCity | Scraper.py:61-83 | without a comma there is no city, state or ZIP |
| AddressParser.ParseFormattedAddress | Scraper.py:56-91 | "no name, city state zip" built from plain words, with a name longer than one character, parses back into those words, the name normalised as an ordinal |
| AddressParser.ParseAddressWithDirection | Scraper.py:75-78 | with a one-letter direction after the number, the street name is the next word, normalised |
| AddressParser.ParseAddressExample | Scraper.py:56-91 | "123 E 3RD AVE, Columbus OH 43215" parses to street number "123", street name "Third", city "Columbus", state "OH", ZIP "43215" |
| AddressParser.ParseSingleWord | Scraper.py:64-71 | one word without comma or space is no usable address |
| AddressParser.ParseSingleWordExample | Scraper.py:64-71 | "NoStreetNumberOnly" gives every field empty |
| FieldExtractor.ApplyField | Scraper.py:137-149 | one locator adds at most its own key |
| FieldExtractor.WrittenValue | Scraper.py:141-147 | defines the value a lookup writes: the stripped text, or "" on a timeout; `ApplyFieldsLastWins` is proved in its terms |
| FieldExtractor.ApplyFields | Scraper.py:135-149 | defines `extract_fields` as the locators applied in order; the lemmas below are proved about it |
| FieldExtractor.ApplyFieldsKeys | Scraper.py:135-149 | the extractor adds no key other than the declared ones |
| FieldExtractor.ApplyFieldsUndecided | Scraper.py:136-149 | a key whose every lookup failed with a non-timeout error keeps its old state, possibly absent |
| FieldExtractor.ApplyFieldKeeps | Scraper.py:148-149 | a locator for another key, or one whose lookup failed otherwise than by timeout, leaves a key as it was |
| FieldExtractor.ApplyFieldsLastWins | Scraper.py:136-147 | the last locator that decides a key gives its value: the stripped text, or "" on a timeout |
| FieldExtractor.ApplyFieldsElsewhere | Scraper.py:135-149 | a key no locator names keeps its old state |
| FieldExtractor.ApplyFieldsComplete | Scraper.py:136-147 | with no non-timeout error, every declared key is present afterwards and nothing else is added |
| FieldExtractor.ApplyFieldsOverwrites | Scraper.py:136-147 | with no non-timeout error, a declared key's final value depends on the page only, not on the record's earlier contents |
| FieldExtractor.ApplyFieldsDistinct | Scraper.py:136-147 | when no two locators share a key, each key whose lookup did not fail otherwise than by timeout holds its own lookup's value |
| FieldExtractor.ExtractFields | Scraper.py:135-149 | the loop on the record object leaves exactly the record the locators give, in order |
| NameParser.WithParsedName | Scraper.py:152-161 | defines `parse_name` on the record; the lemmas below are proved about it |
| NameParser.Surname | Scraper.py:155-159 | defines the last name, `name_parts[0]`; `LastNameIsPrefix` and `NameRoundTrip` are proved about it |
| NameParser.GivenNames | Scraper.py:155-156 | defines `first_middle`, the space-separated fields of the second ", " field, or none; `NameRoundTrip` and `NameWithoutMiddle` are proved about it |
| NameParser.ParsedNameValues | Scraper.py:154-159 | with a non-empty name, the first and middle name keys hold the first and second space-separated fields of the name's second ", " field ("" when missing; the fields themselves may be empty), and the last name key the part before the first ", " |
| NameParser.ParseName | Scraper.py:152-161 | the method on the record object leaves exactly the parsed-name record |
| NameParser.ParsedNameKeys | Scraper.py:154-159 | without a non-empty name nothing changes; with one, exactly the three name keys are added and every other key keeps its state |
| NameParser.NameKeysDistinct | Scraper.py:157-159 | the three name keys are distinct |
| NameParser.NameKeyShape | Scraper.py:157-159 | each name key is a fixed number of characters longer than its prefix and begins with the prefix's first two characters |
| NameParser.LastNameIsPrefix | Scraper.py:155-159 | the last name is a prefix of the stored name |
| NameParser.NameWithoutComma | Scraper.py:155-159 | a name without a comma is all last name, with empty first and middle names |
| NameParser.NameRoundTrip | Scraper.py:155-159 | "LAST, FIRST MIDDLE" built from words without commas or spaces gives the three words back |
| NameParser.NameWithoutMiddle | Scraper.py:156-158 | "LAST, FIRST" has an empty middle name |
| CasePipeline.FieldListKeys | Scraper.py:189-248 | each page's field list writes only the keys of that page |
| CasePipeline.CaseAdminKeysDisjoint | Scraper.py:189-236 | the estate page and the fiduciary page write disjoint keys |
| CasePipeline.CaseAttorneyKeysDisjoint | Scraper.py:189-250 | the estate page and the attorney page write disjoint keys |
| CasePipeline.AdminAttorneyKeysDisjoint | Scraper.py:227-250 | the fiduciary page and the attorney page write disjoint keys |
| CasePipeline.NameKeysApartFromFields | Scraper.py:227-250 | a detail page's name keys are not among its field keys |
| CasePipeline.PipelineKeysApart | Scraper.py:170-214 | `caseno`, `case_url` and `view_state_link` are written by no page |
| CasePipeline.CaseStage | Scraper.py:189-208 | defines the estate page stage: its fields, then the decedent's name; `CaseStageFrame` and `CaseStageKeys` are proved about it |
| CasePipeline.AdminBlock | Scraper.py:224-236 | defines one fiduciary page visit, skipped when the page cannot be opened; `AdminBlockFrame`, `AdminBlockField` and `AdminBlockName` are proved about it |
| CasePipeline.AttorneyBlock | Scraper.py:241-250 | defines one attorney page visit, skipped when the page cannot be opened; `AttorneyBlockFrame` and `AttorneyBlockName` are proved about it |
| CasePipeline.FiduciaryRows | Scraper.py:223-252 | defines the loop over the fiduciary rows, each a fiduciary then an attorney visit; `FiduciaryRowsFrame` and the `Last…` lemmas are proved about it |
| CasePipeline.AdminStage | Scraper.py:211-252 | defines the fiduciary list stage; `AdminStageFrame` and `AdminStageLink` are proved about it |
| CasePipeline.FieldListsDistinct | Scraper.py:227-250 | neither detail page's field list names a key twice |
| CasePipeline.CaseStageFrame | Scraper.py:198-208 | the estate page stage touches only estate page keys |
| CasePipeline.CaseStageKeys | Scraper.py:198-208 | the estate page stage adds no key outside the estate page keys |
| CasePipeline.AdminBlockFrame | Scraper.py:224-238 | a fiduciary block touches only fiduciary keys |
| CasePipeline.AttorneyBlockFrame | Scraper.py:241-252 | an attorney block touches only attorney keys |
| CasePipeline.FiduciaryRowsFrame | Scraper.py:223-252 | the loop over fiduciary rows touches only fiduciary and attorney keys |
| CasePipeline.AdminStageFrame | Scraper.py:211-252 | the fiduciary list stage touches only fiduciary and attorney keys and `view_state_link` |
| CasePipeline.CaseNumberKept | Scraper.py:164-258 | a non-empty case number yields a record holding the stripped number, and the estate page address unless the visit to that page failed with an exception other than a `WebDriverException` |
| CasePipeline.CaseNavigationFailure | Scraper.py:179-258 | when the estate page cannot be opened, the record holds exactly `caseno` and `case_url` after a `WebDriverException`, and only `caseno` after any other exception |
| CasePipeline.AdminStageLink | Scraper.py:211-220 | the fiduciary list stage records `view_state_link` exactly when the list page opens, and then it is that page's address |
| CasePipeline.ViewStateLinkIff | Scraper.py:211-220 | `view_state_link` is present exactly when both the estate page and the fiduciary list opened, and then it is the list page's address |
| CasePipeline.AdminFailureNoAdminKeys | Scraper.py:211-220 | when the fiduciary list fails to open or its table times out, the record has no fiduciary or attorney key |
| CasePipeline.AdminBlockField | Scraper.py:224-236 | one fiduciary page writes each of its fields whose lookup did not fail otherwise than by timeout, with that lookup's value |
| CasePipeline.AdminBlockKeepsAttorney | Scraper.py:224-236 | a fiduciary page leaves every attorney key alone |
| CasePipeline.AttorneyBlockKeepsAdmin | Scraper.py:241-250 | an attorney page leaves every fiduciary key alone |
| CasePipeline.PageName | Scraper.py:135-161 | a detail page whose name lookup shows a non-empty name stores the stripped name and its three parts |
| CasePipeline.PageNameMissing | Scraper.py:135-161 | a detail page whose name lookup times out or shows only whitespace stores "" as the name and leaves the three name keys as they were |
| CasePipeline.AdminBlockName | Scraper.py:224-236 | a fiduciary page showing a non-empty name stores it in `admin_name` and its parts in the `admin_` name keys |
| CasePipeline.AdminBlockNameMissing | Scraper.py:224-236 | a fiduciary page whose name times out or is blank stores `admin_name` "" and leaves the `admin_` name keys as they were |
| CasePipeline.AttorneyBlockName | Scraper.py:241-250 | an attorney page showing a non-empty name stores it in `attorney_name` and its parts in the `attorney_` name keys |
| CasePipeline.AttorneyBlockNameMissing | Scraper.py:241-250 | an attorney page whose name times out or is blank stores `attorney_name` "" and leaves the `attorney_` name keys as they were |
| CasePipeline.LastFiduciaryWins | Scraper.py:223-238 | after the loop, each fiduciary field whose lookup on the last row's open fiduciary page did not fail otherwise than by timeout holds that lookup's value |
| CasePipeline.LastAttorneyWins | Scraper.py:240-252 | after the loop, each attorney field whose lookup on the last row's open attorney page did not fail otherwise than by timeout holds that lookup's value |
| CasePipeline.LastFiduciaryName | Scraper.py:223-238 | when the last row's fiduciary page shows a non-empty name, `admin_name` is that name stripped and the `admin_` name keys hold its parts |
| CasePipeline.LastFiduciaryNameMissing | Scraper.py:223-238 | when the last row's fiduciary name times out or is blank, `admin_name` is "" while the `admin_` name keys keep what the earlier rows left |
| CasePipeline.LastAttorneyName | Scraper.py:240-252 | when the last row's attorney page shows a non-empty name, `attorney_name` is that name stripped and the `attorney_` name keys hold its parts |
| CasePipeline.LastAttorneyNameMissing | Scraper.py:240-252 | when the last row's attorney name times out or is blank, `attorney_name` is "" while the `attorney_` name keys keep what the earlier rows left |
| CasePipeline.ReadCasePage | Scraper.py:198-208 | the estate page stage on the record object |
| CasePipeline.ReadFiduciaryRow | Scraper.py:223-252 | one pass of the fiduciary loop on the record object; a page that cannot be opened skips its block |
| CasePipeline.ReadFiduciaries | Scraper.py:210-252 | the fiduciary list stage on the record object, with the loop invariant that the record is the result of the rows visited so far |
| CasePipeline.CaseData | Scraper.py:164-258 | defines the record `process_case_data` returns; the lemmas above are proved about it |
| CasePipeline.ProcessCaseData | Scraper.py:164-258 | the returned record is the specified record for the case number |
| CasePipeline.ProcessAllCases | Scraper.py:262-271 | one record per case number, in order, each the specified record |
| PropertySearch.ExtractAllAppend | Scraper.py:375-390 | the extraction calls of `a + b` are those of `a` followed, unless one raised, by those of `b` |
| PropertySearch.DataValue | Scraper.py:361-373 | defines what one `extract_data` call writes: the stripped text, "" on a timeout, the stripped second field of a parcel header, or a raise; `ParcelNumber` is proved about it |
| PropertySearch.Step | Scraper.py:361-390 | defines one `extract_data` call on the search's progress; `StoppedStays` and `ExtractAllSnoc` are proved about it |
| PropertySearch.ExtractAll | Scraper.py:361-390 | defines the `extract_data` calls in order, stopping at the first raise; the `ExtractAll…` lemmas are proved about it |
| PropertySearch.ExtractAllSnoc | Scraper.py:375-390 | one more call is one more step |
| PropertySearch.StoppedStays | Scraper.py:361-397 | once a call has raised, the later calls change nothing |
| PropertySearch.ExtractAllFrame | Scraper.py:361-390 | a key no call names keeps its state, whether or not a call raised |
| PropertySearch.ExtractAllKeys | Scraper.py:361-390 | the calls add no key other than the ones they name |
| PropertySearch.ExtractAllRuns | Scraper.py:361-390 | when no call raises, every named key is written and the calls run to the end |
| PropertySearch.ExtractAllValues | Scraper.py:361-390 | when no call raises and keys are distinct, each key holds the value of its own lookup |
| PropertySearch.ShortStreetSkipsSearch | Scraper.py:293-297 | the search skips the site exactly when the street part has fewer than two tokens, and then returns the record untouched |
| PropertySearch.SearchedResults | Scraper.py:312-324 | once both inputs are filled and the button is clicked, the results page decides the record |
| PropertySearch.ReturnsNoneIff | Scraper.py:312-324 | the search returns `None` exactly when it reaches the search button and the button times out, and then the record is unchanged |
| PropertySearch.NoRecordsPlaceholders | Scraper.py:328-345 | a search without records adds exactly the six "N/A" placeholders and keeps every other key |
| PropertySearch.MergeKeeps | Scraper.py:337-344 | `dict.update` keeps the keys of both records, lets the new values win and leaves every other key as it was |
| PropertySearch.ExtractingCalls | Scraper.py:346-390 | with results listed and the first row not failing, the extraction calls decide the record |
| PropertySearch.ParcelFirst | Scraper.py:361-375 | a parcel header without ':' stops the calls on the untouched record; with one, its value survives later calls |
| PropertySearch.ParcelComesFirst | Scraper.py:375-390 | the parcel call comes first and no later call writes `parcel_id` |
| PropertySearch.ParcelNumber | Scraper.py:361-375 | a parcel header without ':' ends the search with nothing written; with one, `parcel_id` is the stripped second field |
| PropertySearch.PropertyKeysDistinct | Scraper.py:375-390 | the seven extraction calls write seven distinct keys |
| PropertySearch.PropertyKeysNamed | Scraper.py:375-390 | the calls write only the seven property keys |
| PropertySearch.PropertyKeysCovered | Scraper.py:375-390 | each of the seven property keys is written by some call |
| PropertySearch.FullExtraction | Scraper.py:361-393 | when every call succeeds, exactly the seven property keys are added, each with its own lookup's value |
| PropertySearch.ResultsFrame | Scraper.py:328-390 | the results page touches only property and placeholder keys |
| PropertySearch.SearchFrame | Scraper.py:291-397 | the search touches only property and placeholder keys |
| PropertySearch.SearchKeys | Scraper.py:291-397 | the search adds no key other than property and placeholder keys |
| PropertySearch.FillInput | Scraper.py:302-310 | `fill_input` raises exactly when the wait for its field fails with anything other than a timeout, or the field is found but cannot be given a string |
| PropertySearch.FillSucceeds | Scraper.py:302-310 | defines when `fill_input` returns normally: its field timed out, or was found and given a string; `FillInput` is proved against it |
| PropertySearch.SearchAddress | Scraper.py:293-397 | defines the search for a parsed address up to the click; `ShortStreetSkipsSearch`, `ReturnsNoneIff` and `SearchedResults` are proved about it |
| PropertySearch.Results | Scraper.py:328-390 | defines the record after the results page; `NoRecordsPlaceholders`, `ExtractingCalls` and `ResultsFrame` are proved about it |
| PropertySearch.MissingAddressUnsearched | Scraper.py:294-397 | a record without a decedent address (the `KeyError` of line 294, caught at lines 395-397) is returned untouched, not `None` |
| PropertySearch.Search | Scraper.py:290-397 | defines the outcome of `search_and_get_case_data`, a record and whether `None` was returned; the lemmas above are proved about it |
| PropertySearch.ExtractData | Scraper.py:361-373 | one `extract_data` call on the record object is one extraction step |
| PropertySearch.ExtractEach | Scraper.py:383-384 | the loop over the dwelling cells is the sequence of their steps, ending at the first that raises |
| PropertySearch.ExtractProperty | Scraper.py:375-390 | the seven calls on the record object leave the specified record, also when one raises |
| PropertySearch.SearchAndGetCaseData | Scraper.py:290-397 | the method's return value and new record are the specified search result |
| RowProjector.ProjectColumnsKeys | Scraper.py:405-437 | a row's keys are exactly the column names |
| RowProjector.DistinctBeforeLast | Scraper.py:405-437 | removing the last of distinct columns keeps the rest distinct and its name new |
| RowProjector.ProjectColumnsCount | Scraper.py:405-437 | with distinct names, a row has one key per column |
| RowProjector.ProjectColumnsValue | Scraper.py:405-437 | with distinct names, each column holds its source key's value, or "" when the record lacks it |
| RowProjector.ProjectColumnsEmpty | Scraper.py:405-437 | rows of the empty record hold only empty strings |
| RowProjector.ColumnsDistinct | Scraper.py:406-436 | the 31 column names are pairwise distinct |
| RowProjector.ProjectRow | Scraper.py:405-437 | every row has exactly the 31 columns, each the value of its source key or "" |
| RowProjector.Project | Scraper.py:405-437 | defines the row of one record; `ProjectRow` and `ProjectEmpty` are proved about it |
| RowProjector.ProjectColumnsSources | Scraper.py:405-437 | records that agree on the source keys give the same row |
| RowProjector.ProjectEmpty | Scraper.py:405-437 | the empty record gives a row of 31 empty strings |
| RowProjector.ProjectAll | Scraper.py:399-402 | defines the rows of a list of records, skipping `None`; the lemmas below are proved about it |
| RowProjector.ProjectAllAppend | Scraper.py:400-405 | the rows of two lists of records are the rows of each, concatenated |
| RowProjector.ProjectAllLength | Scraper.py:400-405 | there is one row per non-`None` record |
| RowProjector.ProjectAllFrom | Scraper.py:400-405 | every row is the row of some record of the input |
| RowProjector.ProjectAllPresent | Scraper.py:400-405 | without `None` entries, row `i` is the row of record `i` |
| RowProjector.PreprocessCaseData | Scraper.py:399-437 | the rows are appended to `processed_data` after those already there, one per non-`None` record, in order |
| CaseRows.ColumnAt | Scraper.py:405-437 | a named column of a row holds its source key's value |
| CaseRows.PlaceholderLookups | Scraper.py:337-344 | the placeholders replace "bathrooms" and "Tot Fin Area" and leave "bedrooms", "Year built", "Transfer Date" and "Transfer Price" alone |
| CaseRows.NoRecordsRow | Scraper.py:337-344 | after a search without records, only the "bathrooms" and "Tot Fin Area" columns read "N/A"; "beds", "Yr Built", "transfer date" and "transfer price" keep what the record held |
| CaseRows.SearchOutputRows | Scraper.py:399-402 | a search result gives no row exactly when it is `None`, and otherwise the row of its record |
| CaseRows.CaseNumberRow | Scraper.py:405-406 | the `case_num` column holds the record's `caseno` |
| CaseRows.SearchedCaseNumber | Scraper.py:164-170 | the property search keeps the stripped case number the pipeline stored |
| CaseRows.CaseLinkRow | Scraper.py:412 | the `case_link` column holds the record's `case_url`, or "" without one |
| CaseRows.SearchedCaseUrl | Scraper.py:179-258 | after the property search, `case_url` holds the estate page address unless its visit failed with an exception other than a `WebDriverException`, and is missing then |
| CaseRows.CaseLinkColumn | Scraper.py:405-412 | the `case_link` column (line 412) holds the estate page address, or "" when its visit failed with an exception other than a `WebDriverException` |
| CaseRows.CaseNumberColumn | Scraper.py:164-170 | a non-empty case number yields no output row exactly when the property search returned `None`; otherwise exactly one row, whose `case_num` column holds the stripped number |

## Left out

- Browser start-up (`get_chromedriver`), the reading of the case list from the date index page (`get_case_rows`), the `__main__` driver, CSV and pandas output (`save_to_csv`, `DataFrame.to_csv`) and the renaming of the previous snapshot: these are I/O and process lifecycle.
- XPath expressions and the DOM: every wait, click and typed value is answered by an oracle that depends only on the page and the locator. The model does not capture a page whose answers change between waits.
- `time.sleep` and `print`: they have no effect on the data; `Retry.Retry` counts its sleeps instead of sleeping.
- Unicode:
  - `str.strip` and `str.split()` are modelled with the ASCII whitespace characters (tab, line feed, vertical tab, form feed, carriage return, the four separator controls and space);
  - `str.isdigit` is modelled with the ASCII digits only.
- The retry decorator is modelled as it is written, on an arbitrary operation. It is not composed with `extract_and_convert_ordinal` or `search_and_get_case_data`, because neither ever raises: the first contains no failing operation, and the second catches every exception itself. Both are modelled undecorated.
- `CasePipeline.Portal`: the court's four page-address prefixes are a parameter of the pipeline, and `CasePipeline.FRANKLIN_PROBATE` holds the ones the scraper uses. Nothing reads inside an address.
- `process_case_data(None)` and a `None` case in `process_all_cases`: case numbers are strings. The `None` entries that reach `preprocess_case_data` are modelled.
- The exception handler of `process_all_cases` around each case (Scraper.py:265-270) and the `try` of the `__main__` block around `preprocess_case_data` (Scraper.py:466-470) are not modelled: `preprocess_case_data` itself catches nothing, and no exception can reach either handler in the model, since every failure inside a case is caught at a lower level.

