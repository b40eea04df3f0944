/**
 * The page-object base class: which Playwright browser a name selects, and the launch options
 * it is started with. Launching the browser and opening the page are opaque steps of the
 * browser library; here a launched browser is the record of the kind and options it was given.
 */
module BasePage {
  import opened Wrappers
  import Text

  datatype BrowserKind = Firefox | Chromium | Webkit

  datatype LaunchOptions = LaunchOptions(headless: bool, executablePath: Option<string>)

  datatype Browser = Browser(kind: BrowserKind, options: LaunchOptions)

  datatype Page = Page(browser: Browser)

  const DEFAULT_BROWSER := "chromium"
  const EXECUTABLE_ENV := "CHROME_EXECUTABLE_PATH"
  const EXECUTABLE_PROPERTY := "chrome.executable.path"

  /** The name the switch compares: chromium for null, otherwise trimmed and lower-cased. */
  function Normalize(name: Option<string>): (r: string)
    ensures name.None? ==> r == DEFAULT_BROWSER
    ensures Text.IsTrimmed(r)
    ensures forall i :: 0 <= i < |r| ==> !('A' <= r[i] <= 'Z')
  {
    match name
    case None => DEFAULT_BROWSER
    case Some(s) => LowerTrimmed(Text.Trim(s))
  }

  /** Lower-casing a trimmed name keeps it trimmed. */
  function LowerTrimmed(t: string): (l: string)
    requires Text.IsTrimmed(t)
    ensures l == Text.ToLower(t) && Text.IsTrimmed(l)
  {
    var l := Text.ToLower(t);
    assert l != [] ==> l[0] == Text.LowerChar(t[0]) && l[|l| - 1] == Text.LowerChar(t[|t| - 1]);
    l
  }

  function UnsupportedMessage(name: Option<string>): string {
    "Unsupported browser type: '" + (if name.Some? then name.value else "null") + "'. "
      + "Use one of: Chromium, Firefox, Webkit"
  }

  /** The switch over the normalised name; any other name throws IllegalArgumentException. */
  function SelectBrowser(name: Option<string>): (r: Result<BrowserKind>)
    ensures name.None? ==> r == Ok(Chromium)
    ensures r == Ok(Firefox) <==> Normalize(name) == "firefox"
    ensures r == Ok(Chromium) <==> Normalize(name) == "chromium" || Normalize(name) == "chrome"
    ensures r == Ok(Webkit) <==> Normalize(name) == "webkit"
    ensures r.Err? ==> r.error == IllegalArgument(UnsupportedMessage(name))
  {
    var n := Normalize(name);
    if n == "firefox" then Ok(Firefox)
    else if n == "chromium" || n == "chrome" then Ok(Chromium)
    else if n == "webkit" then Ok(Webkit)
    else Err(IllegalArgument(UnsupportedMessage(name)))
  }

  /** Normalising an already normalised name changes nothing. */
  lemma {:induction false} NormalizeIdempotent(name: Option<string>)
    ensures Normalize(Some(Normalize(name))) == Normalize(name)
  {
    NormalizeFixes(Normalize(name));
  }

  /** A trimmed name without upper-case letters is its own normal form. */
  lemma {:induction false} NormalizeFixes(s: string)
    requires Text.IsTrimmed(s) && forall i :: 0 <= i < |s| ==> !('A' <= s[i] <= 'Z')
    ensures Normalize(Some(s)) == s
  {
    Text.TrimOfTrimmed(s);
    var l := Text.ToLower(s);
    assert forall i :: 0 <= i < |s| ==> l[i] == s[i];
  }

  /** Surrounding whitespace and letter case do not change the selection. */
  lemma {:induction false} SelectionIgnoresCaseAndSpace(name: string)
    ensures SelectBrowser(Some(name)) == SelectBrowser(Some(Normalize(Some(name)))) ||
            (SelectBrowser(Some(name)).Err? && SelectBrowser(Some(Normalize(Some(name)))).Err?)
  {
    NormalizeIdempotent(Some(name));
  }

  /**
   * The executable path: the environment variable when it is set (even blank), otherwise the
   * system property; it is applied only when it is not blank.
   */
  function ExecutablePath(env: Option<string>, property: Option<string>): (r: Option<string>)
    ensures env.Some? && !Text.IsBlank(env.value) ==> r == env
    ensures env.Some? && Text.IsBlank(env.value) ==> r.None?
    ensures env.None? ==> (r.Some? <==> property.Some? && !Text.IsBlank(property.value))
    ensures env.None? && r.Some? ==> r == property
    ensures r.Some? ==> !Text.IsBlank(r.value)
  {
    var chosen := if env.Some? then env else property;
    if chosen.Some? && !Text.IsBlank(chosen.value) then chosen else None
  }

  function Options(env: Option<string>, property: Option<string>): (r: LaunchOptions)
    ensures r.headless
    ensures r.executablePath == ExecutablePath(env, property)
  {
    LaunchOptions(true, ExecutablePath(env, property))
  }

  class PageObject {
    var browser: Option<Browser>
    var page: Option<Page>

    /** A page, when there is one, belongs to the browser the object holds. */
    predicate Valid()
      reads this
    {
      page.Some? ==> browser.Some? && page.value.browser == browser.value
    }

    constructor()
      ensures Valid() && browser.None? && page.None?
    {
      browser := None;
      page := None;
    }

    /**
     * createPlaywrightPageInstance: select the browser, launch it headless with the chosen
     * executable path, and keep both the browser and its new page. An unsupported name
     * throws before either field is touched.
     */
    method CreatePlaywrightPageInstance(name: Option<string>, env: Option<string>, property: Option<string>)
      returns (r: Result<Page>)
      requires Valid()
      modifies this
      ensures Valid()
      ensures SelectBrowser(name).Err? ==>
                r == Err(SelectBrowser(name).error) && browser == old(browser) && page == old(page)
      ensures SelectBrowser(name).Ok? ==>
                r.Ok? && browser == Some(Browser(SelectBrowser(name).value, Options(env, property))) &&
                page == Some(r.value) && r.value.browser == browser.value
    {
      var kind := SelectBrowser(name);
      if kind.Err? {
        return Err(kind.error);
      }
      var options := LaunchOptions(true, None);
      var executable := env;
      if executable.None? {
        executable := property;
      }
      if executable.Some? && !Text.IsBlank(executable.value) {
        options := options.(executablePath := executable);
      }
      var b := Browser(kind.value, options);
      browser := Some(b);
      var p := Page(b);
      page := Some(p);
      r := Ok(p);
    }
  }
}
