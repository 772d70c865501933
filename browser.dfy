/**
 * The browser automation server: a manager holding one Playwright driver,
 * one browser, one browser context and a map from page ids to pages, the
 * page operations guarded by that map, the login workflow and the table
 * scraper.
 *
 * Playwright is not modelled. Every object it would create is a handle
 * carrying a serial number that stands for the object's identity, and what
 * a page call did (returned a value or raised) is supplied by the caller as
 * a `Result`.
 */
module Browser {
  import opened Common
  import Base64

  /** The engines `start_browser` knows. */
  datatype Engine = Chromium | Firefox | Webkit

  /** The engine a `browser_type` names, if any. */
  function EngineOf(browserType: string): (e: Option<Engine>)
    ensures e == Some(Chromium) <==> browserType == "chromium"
    ensures e == Some(Firefox) <==> browserType == "firefox"
    ensures e == Some(Webkit) <==> browserType == "webkit"
    ensures e.None? <==> browserType !in {"chromium", "firefox", "webkit"}
  {
    if browserType == "chromium" then Some(Chromium)
    else if browserType == "firefox" then Some(Firefox)
    else if browserType == "webkit" then Some(Webkit)
    else None
  }

  /** Python's spelling of a boolean in an f-string. */
  function PyBool(b: bool): string
  {
    if b then "True" else "False"
  }

  datatype BrowserHandle = BrowserHandle(serial: nat, engine: Engine, headless: bool)
  datatype ContextHandle = ContextHandle(serial: nat, browser: nat)
  datatype Page = Page(serial: nat, context: nat)

  // ------------------------------------------------ replies of page operations

  const PageNotFound := "Page not found"

  /** The reply of a `navigate` that reached `url`. */
  function Navigated(url: string, title: string): string
  {
    "Navigated to " + url + " - Title: " + title
  }

  /** `click_element`'s reply; `found` says whether the page id is bound. */
  function ClickReply(found: bool, selector: string, click: Result<()>): (msg: string)
    ensures msg == PageNotFound <==> !found
    ensures found && click.Ok? ==> msg == "Clicked element: " + selector
    ensures found && click.Raised? ==> msg == "Failed to click " + selector + ": " + click.message
  {
    if !found then PageNotFound
    else if click.Ok? then "Clicked element: " + selector
    else "Failed to click " + selector + ": " + click.message
  }

  /** `fill_input`'s reply. */
  function FillReply(found: bool, selector: string, value: string, fill: Result<()>): (msg: string)
    ensures msg == PageNotFound <==> !found
    ensures found && fill.Ok? ==> msg == "Filled " + selector + " with: " + value
    ensures found && fill.Raised? ==> msg == "Failed to fill " + selector + ": " + fill.message
  {
    if !found then PageNotFound
    else
      var m := if fill.Ok? then "Filled " + selector + " with: " + value
               else "Failed to fill " + selector + ": " + fill.message;
      assert m[0] == 'F' != PageNotFound[0];
      m
  }

  /**
   * `extract_text`'s reply. `text` is what `text_content` returned: `None`
   * or a string. An empty or missing text is reported as "No text found".
   */
  function ExtractReply(found: bool, selector: string, text: Result<Option<string>>): (msg: string)
    ensures !found ==> msg == PageNotFound
    ensures found && text.Ok? && (text.value.None? || text.value.value == "") ==> msg == "No text found"
    ensures found && text.Ok? && text.value.Some? && text.value.value != "" ==> msg == text.value.value
    ensures found && text.Raised? ==> msg == "Failed to extract text from " + selector + ": " + text.message
  {
    if !found then PageNotFound
    else match text
      case Ok(t) => if t.Some? && t.value != "" then t.value else "No text found"
      case Raised(m) => "Failed to extract text from " + selector + ": " + m
  }

  /** At most the first 100 characters of the Base64 text of the screenshot. */
  function Preview(bytes: seq<Base64.Byte>): string
  {
    Take(Base64.Encode(bytes), 100)
  }

  /** `screenshot`'s reply; `shot` is the PNG bytes the page produced. */
  function ScreenshotReply(found: bool, shot: Result<seq<Base64.Byte>>): (msg: string)
    ensures msg == PageNotFound <==> !found
    ensures found && shot.Ok? ==> msg == "Screenshot taken (base64): " + Preview(shot.value) + "..."
    ensures found && shot.Raised? ==> msg == "Failed to take screenshot: " + shot.message
  {
    if !found then PageNotFound
    else if shot.Ok? then "Screenshot taken (base64): " + Preview(shot.value) + "..."
    else "Failed to take screenshot: " + shot.message
  }

  /**
   * `execute_javascript`'s reply. `result` is the JSON text of the value
   * the script produced, or the error of evaluating or serialising it.
   */
  function JavascriptReply(found: bool, result: Result<string>): (msg: string)
    ensures !found ==> msg == PageNotFound
    ensures found && result.Ok? ==> msg == result.value
    ensures found && result.Raised? ==> msg == "JavaScript execution failed: " + result.message
  {
    if !found then PageNotFound
    else if result.Ok? then result.value
    else "JavaScript execution failed: " + result.message
  }

  /** `wait_for_selector`'s reply. */
  function WaitReply(found: bool, selector: string, wait: Result<()>): (msg: string)
    ensures msg == PageNotFound <==> !found
    ensures found && wait.Ok? ==> msg == "Element " + selector + " appeared"
    ensures found && wait.Raised? ==> msg == "Element " + selector + " did not appear: " + wait.message
  {
    if !found then PageNotFound
    else if wait.Ok? then "Element " + selector + " appeared"
    else "Element " + selector + " did not appear: " + wait.message
  }

  /** A screenshot of at most 75 bytes is shown whole, and the preview decodes back to it. */
  lemma ShortPreview(bytes: seq<Base64.Byte>)
    requires |bytes| <= 75
    ensures Preview(bytes) == Base64.Encode(bytes)
    ensures Base64.Decode(Preview(bytes)) == Some(bytes)
  {
    var e := Base64.Encode(bytes);
    Base64.EncodeLength(bytes);
    assert (|bytes| + 2) / 3 <= 25;
    assert |e| <= 100;
    Base64.RoundTrip(bytes);
  }

  /**
   * A longer screenshot shows exactly 100 characters: the encoding of its
   * first 75 bytes, to which the preview decodes back.
   */
  lemma LongPreview(bytes: seq<Base64.Byte>)
    requires |bytes| >= 75
    ensures |Preview(bytes)| == 100 && Preview(bytes) == Base64.Encode(bytes[..75])
    ensures Base64.Decode(Preview(bytes)) == Some(bytes[..75])
  {
    Base64.EncodePrefix(bytes, 25);
    Base64.RoundTrip(bytes[..75]);
  }

  /** The script `scrape_table_data` evaluates, with the selector spliced in. */
  function TableScript(tableSelector: string): (script: string)
    ensures var k := |TableScriptHead|;
      |script| == k + |tableSelector| + |TableScriptTail|
      && script[..k] == TableScriptHead && script[k..k + |tableSelector|] == tableSelector
      && script[k + |tableSelector|..] == TableScriptTail
  {
    TableScriptHead + tableSelector + TableScriptTail
  }

  const TableScriptHead := "\n        const table = document.querySelector('"
  const TableScriptTail := "');\n        if (!table) return 'Table not found';\n        \n        const rows = Array.from(table.querySelectorAll('tr'));\n        const data = rows.map(row => \n            Array.from(row.querySelectorAll('th, td')).map(cell => cell.textContent.trim())\n        );\n        return data;\n        "

  // ------------------------------------------------------------ the manager

  /** `BrowserManager`. `created` counts the Playwright objects made so far. */
  class BrowserManager {
    var playwright: Option<nat>
    var browser: Option<BrowserHandle>
    var context: Option<ContextHandle>
    var pages: map<string, Page>
    var created: nat

    /**
     * Every handle was created by this manager, the context belongs to the
     * current browser, and no two page ids share a page.
     */
    predicate Valid()
      reads this
    {
      && (playwright.Some? ==> playwright.value < created)
      && (browser.Some? ==> browser.value.serial < created)
      && (context.Some? ==> context.value.serial < created && browser.Some? && context.value.browser == browser.value.serial)
      && (forall id :: id in pages ==> pages[id].serial < created)
      && (forall a, b :: a in pages && b in pages && a != b ==> pages[a].serial != pages[b].serial)
    }

    constructor ()
      ensures Valid()
      ensures playwright.None? && browser.None? && context.None? && pages == map[]
    {
      playwright := None;
      browser := None;
      context := None;
      pages := map[];
      created := 0;
    }

    /**
     * `start_browser`: a new driver is started whatever the type; an
     * unknown type then raises and keeps the old browser and context.
     */
    method StartBrowser(headless: bool, browserType: string) returns (r: Result<string>)
      requires Valid()
      modifies this
      ensures Valid()
      ensures playwright == Some(old(created)) && pages == old(pages)
      ensures EngineOf(browserType).None? ==>
        r == Raised("Unsupported browser type: " + browserType)
        && browser == old(browser) && context == old(context)
      ensures EngineOf(browserType).Some? ==>
        browser == Some(BrowserHandle(old(created) + 1, EngineOf(browserType).value, headless))
        && context == Some(ContextHandle(old(created) + 2, old(created) + 1))
        && r == Ok("Browser " + browserType + " started (headless=" + PyBool(headless) + ")")
    {
      playwright := Some(created);
      created := created + 1;
      var engine := EngineOf(browserType);
      if engine.None? {
        return Raised("Unsupported browser type: " + browserType);
      }
      browser := Some(BrowserHandle(created, engine.value, headless));
      context := Some(ContextHandle(created + 1, created));
      created := created + 2;
      r := Ok("Browser " + browserType + " started (headless=" + PyBool(headless) + ")");
    }

    /** `new_page`: binds `pageId` to a fresh page of the context, replacing any page it had. */
    method NewPage(pageId: string) returns (r: Result<string>)
      requires Valid()
      modifies this
      ensures Valid()
      ensures playwright == old(playwright) && browser == old(browser) && context == old(context)
      ensures old(context).None? ==>
        r == Raised("Browser not started") && pages == old(pages) && created == old(created)
      ensures old(context).Some? ==>
        pages == old(pages)[pageId := Page(old(created), old(context).value.serial)]
        && created == old(created) + 1
        && r == Ok("New page created with ID: " + pageId)
    {
      if context.None? {
        return Raised("Browser not started");
      }
      pages := pages[pageId := Page(created, context.value.serial)];
      created := created + 1;
      r := Ok("New page created with ID: " + pageId);
    }

    /**
     * `navigate`: creates the page when `pageId` is not bound and reuses it
     * otherwise. `visit` is what `goto` followed by `title` did: the title,
     * or the error either of them raised.
     */
    method Navigate(url: string, pageId: string, visit: Result<string>) returns (r: Result<string>)
      requires Valid()
      modifies this
      ensures Valid()
      ensures playwright == old(playwright) && browser == old(browser) && context == old(context)
      ensures pageId in old(pages) ==> pages == old(pages)
      ensures pageId !in old(pages) && old(context).Some? ==>
        pages == old(pages)[pageId := Page(old(created), old(context).value.serial)]
      ensures pageId !in old(pages) && old(context).None? ==>
        pages == old(pages) && r == Raised("Browser not started")
      ensures pageId in old(pages) || old(context).Some? ==>
        pageId in pages && r == (if visit.Ok? then Ok(Navigated(url, visit.value)) else visit)
      ensures r.Raised? <==> (pageId !in old(pages) && old(context).None?) || visit.Raised?
    {
      if pageId !in pages {
        var made := NewPage(pageId);
        if made.Raised? {
          return Raised(made.message);
        }
      }
      match visit {
        case Ok(title) =>
          r := Ok(Navigated(url, title));
        case Raised(m) =>
          r := Raised(m);
      }
    }

    /** `click_element`; changes nothing. */
    method ClickElement(selector: string, pageId: string, click: Result<()>) returns (msg: string)
      ensures msg == ClickReply(pageId in pages, selector, click)
    {
      msg := ClickReply(pageId in pages, selector, click);
    }

    /** `fill_input`; changes nothing. */
    method FillInput(selector: string, value: string, pageId: string, fill: Result<()>) returns (msg: string)
      ensures msg == FillReply(pageId in pages, selector, value, fill)
    {
      msg := FillReply(pageId in pages, selector, value, fill);
    }

    /** `extract_text`; changes nothing. */
    method ExtractText(selector: string, pageId: string, text: Result<Option<string>>) returns (msg: string)
      ensures msg == ExtractReply(pageId in pages, selector, text)
    {
      msg := ExtractReply(pageId in pages, selector, text);
    }

    /** `screenshot`; changes nothing. */
    method Screenshot(pageId: string, shot: Result<seq<Base64.Byte>>) returns (msg: string)
      ensures msg == ScreenshotReply(pageId in pages, shot)
    {
      msg := ScreenshotReply(pageId in pages, shot);
    }

    /** `execute_javascript`; `evaluate(script)` is what evaluating `script` on the page gave. */
    method ExecuteJavascript(script: string, pageId: string, evaluate: string -> Result<string>) returns (msg: string)
      ensures msg == JavascriptReply(pageId in pages, evaluate(script))
    {
      msg := JavascriptReply(pageId in pages, evaluate(script));
    }

    /** `wait_for_selector`; the timeout is handed to the page, whose answer is `wait`. */
    method WaitForSelector(selector: string, timeout: int, pageId: string, wait: Result<()>) returns (msg: string)
      ensures msg == WaitReply(pageId in pages, selector, wait)
    {
      msg := WaitReply(pageId in pages, selector, wait);
    }
  }

  /** The four labelled entries `automate_login` collects, one per step. */
  function LoginEntries(navigation: string, username: string, password: string, submit: string): seq<string>
  {
    ["Navigation: " + navigation, "Username: " + username, "Password: " + password, "Submit: " + submit]
  }

  /**
   * `automate_login`: navigate, fill both fields, click submit, collecting
   * one labelled entry per step. A failed fill or click is recorded and the
   * workflow goes on; only a raising `navigate` ends it.
   */
  method AutomateLogin(manager: BrowserManager, loginUrl: string, usernameSelector: string,
                       passwordSelector: string, submitSelector: string, username: string, password: string,
                       pageId: string, visit: Result<string>, fillUsername: Result<()>, fillPassword: Result<()>,
                       submit: Result<()>) returns (r: Result<seq<string>>)
    requires manager.Valid()
    modifies manager
    ensures manager.Valid()
    ensures r.Raised? <==> (pageId !in old(manager.pages) && old(manager.context).None?) || visit.Raised?
    ensures r.Raised? ==>
      r.message == if pageId !in old(manager.pages) && old(manager.context).None? then "Browser not started" else visit.message
    ensures manager.playwright == old(manager.playwright)
    ensures manager.browser == old(manager.browser) && manager.context == old(manager.context)
    ensures pageId in old(manager.pages) ==> manager.pages == old(manager.pages)
    ensures pageId !in old(manager.pages) && old(manager.context).Some? ==>
      manager.pages == old(manager.pages)[pageId := Page(old(manager.created), old(manager.context).value.serial)]
    ensures pageId !in old(manager.pages) && old(manager.context).None? ==> manager.pages == old(manager.pages)
    ensures r.Ok? ==> pageId in manager.pages
    ensures r.Ok? ==> r.value == LoginEntries(Navigated(loginUrl, visit.value),
      FillReply(true, usernameSelector, username, fillUsername),
      FillReply(true, passwordSelector, password, fillPassword),
      ClickReply(true, submitSelector, submit))
  {
    var results: seq<string> := [];
    var step := manager.Navigate(loginUrl, pageId, visit);
    if step.Raised? {
      return Raised(step.message);
    }
    results := results + ["Navigation: " + step.value];
    var user := manager.FillInput(usernameSelector, username, pageId, fillUsername);
    results := results + ["Username: " + user];
    var pass := manager.FillInput(passwordSelector, password, pageId, fillPassword);
    results := results + ["Password: " + pass];
    var click := manager.ClickElement(submitSelector, pageId, submit);
    results := results + ["Submit: " + click];
    assert results == LoginEntries(step.value, user, pass, click);
    r := Ok(results);
  }

  /** `scrape_table_data`: the page guard, then the table script through `execute_javascript`. */
  method ScrapeTableData(manager: BrowserManager, tableSelector: string, pageId: string,
                         evaluate: string -> Result<string>) returns (msg: string)
    ensures pageId !in manager.pages ==> msg == PageNotFound
    ensures pageId in manager.pages ==> msg == JavascriptReply(true, evaluate(TableScript(tableSelector)))
  {
    if pageId !in manager.pages {
      return PageNotFound;
    }
    msg := manager.ExecuteJavascript(TableScript(tableSelector), pageId, evaluate);
  }
}
