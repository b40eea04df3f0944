/**
 * The test-tree copy of the page-object base class: an exact, case-sensitive browser name,
 * always launched headless.
 */
module TestBasePage {
  import opened Wrappers
  import BasePage

  function CouldNotLaunchMessage(name: string): string {
    "Could not launch a browser for type " + name
  }

  /**
   * The switch on the raw name: only "Firefox", "Chromium" and "Webkit" select a browser; a
   * null name makes the switch itself throw NullPointerException.
   */
  function SelectBrowser(name: Option<string>): (r: Result<BasePage.BrowserKind>)
    ensures name.None? ==> r == Err(NullPointer)
    ensures r == Ok(BasePage.Firefox) <==> name == Some("Firefox")
    ensures r == Ok(BasePage.Chromium) <==> name == Some("Chromium")
    ensures r == Ok(BasePage.Webkit) <==> name == Some("Webkit")
    ensures name.Some? && r.Err? ==> r.error == IllegalArgument(CouldNotLaunchMessage(name.value))
  {
    match name
    case None => Err(NullPointer)
    case Some(s) =>
      if s == "Firefox" then Ok(BasePage.Firefox)
      else if s == "Chromium" then Ok(BasePage.Chromium)
      else if s == "Webkit" then Ok(BasePage.Webkit)
      else Err(IllegalArgument(CouldNotLaunchMessage(s)))
  }

  /** Unlike the main copy, a lower-case name is refused. */
  lemma LowerCaseRefused()
    ensures SelectBrowser(Some("firefox")).Err?
    ensures BasePage.SelectBrowser(Some("firefox")) == Ok(BasePage.Firefox)
  {
    BasePage.NormalizeFixes("firefox");
  }

  class PageObject {
    var browser: Option<BasePage.Browser>
    var page: Option<BasePage.Page>

    predicate Valid()
      reads this
    {
      page.Some? ==> browser.Some? && page.value.browser == browser.value
    }

    constructor()
      ensures Valid() && browser.None? && page.None?
    {
      browser := None;
      page := None;
    }

    /** createPlaywrightPageInstance: no executable path; the browser is always headless. */
    method CreatePlaywrightPageInstance(name: Option<string>) returns (r: Result<BasePage.Page>)
      requires Valid()
      modifies this
      ensures Valid()
      ensures SelectBrowser(name).Err? ==>
                r == Err(SelectBrowser(name).error) && browser == old(browser) && page == old(page)
      ensures SelectBrowser(name).Ok? ==>
                r.Ok? && page == Some(r.value) &&
                browser == Some(BasePage.Browser(SelectBrowser(name).value, BasePage.LaunchOptions(true, None)))
    {
      var kind := SelectBrowser(name);
      if kind.Err? {
        return Err(kind.error);
      }
      var b := BasePage.Browser(kind.value, BasePage.LaunchOptions(true, None));
      browser := Some(b);
      var p := BasePage.Page(b);
      page := Some(p);
      r := Ok(p);
    }
  }
}
