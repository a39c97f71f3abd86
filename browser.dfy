/**
  The browser session, seen only through the outcomes of its calls. Every
  navigation and every bounded wait for an element is answered by an oracle
  that depends on the page and the locator asked for; nothing about XPath or
  the DOM is modelled.
 */
module Browser {

  /** The outcome of waiting for one element (and of acting on it, for a
      click or a typed value): found with its text, a `TimeoutException`, or
      any other exception. */
  datatype Lookup = Found(text: string) | Timeout | OtherError

  /** The outcome of waiting for all rows of a table: the number of rows, or a
      timeout. */
  datatype RowsOutcome = Rows(count: nat) | RowsTimeout

  /** The probate-court session. `navigate(url)` says whether `driver.get(url)`
      succeeds; when it does not, `webDriverError(url)` says whether it raised
      a `WebDriverException` rather than some other exception (a lost
      connection to the driver process, say); `locate(url, locator)` answers a
      wait on the page at `url`; `rows(url)` answers the wait for the
      fiduciary table on that page. */
  datatype Driver = Driver(navigate: string -> bool,
                           webDriverError: string -> bool,
                           locate: (string, string) -> Lookup,
                           rows: string -> RowsOutcome)

  /** The property-search session, already on its search page: `locate`
      answers each wait of one search, by locator. */
  datatype PropertySite = PropertySite(locate: string -> Lookup)
}
