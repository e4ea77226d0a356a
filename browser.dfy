/** The browser manager: starts Playwright and a Chromium browser, hands out
    isolated contexts and pages, and releases them on every exit path. */
module Browser {
  import opened Common

  datatype Viewport = Viewport(width: int, height: int)

  /** The `browser` section of the configuration; each key may be absent. */
  datatype BrowserConfig = BrowserConfig(headless: Option<bool>, timeout: Option<int>, viewport: Option<Viewport>)

  const DefaultTimeout: int := 30000
  const DefaultViewport: Viewport := Viewport(1920, 1080)

  /** The message of the RuntimeError raised by `new_context` before `start`. */
  const NotStartedMessage: string := "Browser not started. Call start() first."

  /** What the manager did to Playwright, in order. Handles are numbers the
      manager hands out, one per started object. */
  datatype BrowserEvent =
    | PlaywrightStarted(pw: nat)
    | BrowserLaunched(browser: nat, headless: bool)
    | BrowserClosed(browser: nat)
    | PlaywrightStopped(pw: nat)
    | ContextOpened(context: nat, timeout: int, viewport: Viewport)
    | ContextClosed(context: nat)
    | PageOpened(page: nat, context: nat)
    | PageClosed(page: nat)

  class AsyncBrowserManager {
    const headless: bool
    const timeout: int
    const viewport: Viewport

    /** `_playwright` and `_browser`: None until started, None again once stopped. */
    var playwright: Option<nat>
    var browser: Option<nat>

    /** Everything done so far, and the next free handle. */
    var events: seq<BrowserEvent>
    var nextHandle: nat

    /** `__init__`: each setting falls back to its default when absent. */
    constructor (config: BrowserConfig)
      ensures headless == (if config.headless.Some? then config.headless.value else true)
      ensures timeout == (if config.timeout.Some? then config.timeout.value else DefaultTimeout)
      ensures viewport == (if config.viewport.Some? then config.viewport.value else DefaultViewport)
      ensures playwright == None && browser == None
      ensures events == [] && nextHandle == 0
    {
      headless := if config.headless.Some? then config.headless.value else true;
      timeout := if config.timeout.Some? then config.timeout.value else DefaultTimeout;
      viewport := if config.viewport.Some? then config.viewport.value else DefaultViewport;
      playwright := None;
      browser := None;
      events := [];
      nextHandle := 0;
    }

    /** `start`: starts Playwright, then launches the browser. Either step may
        raise (`playwrightFails`, `launchFails`); a launch failure leaves
        `_playwright` set and `_browser` as it was. */
    method Start(playwrightFails: Option<Exc>, launchFails: Option<Exc>) returns (raised: Option<Exc>)
      modifies this
      ensures playwrightFails.Some? ==>
        raised == playwrightFails && playwright == old(playwright) && browser == old(browser) && events == old(events)
      ensures playwrightFails.None? ==> playwright == Some(old(nextHandle))
      ensures playwrightFails.None? && launchFails.Some? ==>
        raised == launchFails && browser == old(browser) && events == old(events) + [PlaywrightStarted(old(nextHandle))]
      ensures playwrightFails.None? && launchFails.None? ==>
        raised == None && browser == Some(old(nextHandle) + 1)
        && events == old(events) + [PlaywrightStarted(old(nextHandle)), BrowserLaunched(old(nextHandle) + 1, headless)]
    {
      if playwrightFails.Some? {
        return playwrightFails;
      }
      playwright := Some(nextHandle);
      events := events + [PlaywrightStarted(nextHandle)];
      nextHandle := nextHandle + 1;
      if launchFails.Some? {
        return launchFails;
      }
      browser := Some(nextHandle);
      events := events + [BrowserLaunched(nextHandle, headless)];
      nextHandle := nextHandle + 1;
      raised := None;
    }

    /** `stop`: closes the browser if there is one, then stops Playwright if it
        runs, each set to None once its call returns; on a stopped manager
        nothing happens. A raising `close` (`closeFails`) propagates at once,
        leaving `_browser` set and Playwright running; a raising `stop`
        (`stopFails`) leaves `_playwright` set. */
    method Stop(closeFails: Option<Exc>, stopFails: Option<Exc>) returns (raised: Option<Exc>)
      modifies this
      ensures nextHandle == old(nextHandle)
      ensures old(browser).Some? && closeFails.Some? ==>
        raised == closeFails && browser == old(browser) && playwright == old(playwright) && events == old(events)
      ensures old(browser).None? || closeFails.None? ==>
        browser == None
        && (old(playwright).Some? && stopFails.Some? ==> raised == stopFails && playwright == old(playwright))
        && (old(playwright).None? || stopFails.None? ==> raised == None && playwright == None)
        && events == old(events)
          + (if old(browser).Some? then [BrowserClosed(old(browser).value)] else [])
          + (if old(playwright).Some? && stopFails.None? then [PlaywrightStopped(old(playwright).value)] else [])
    {
      raised := None;
      if browser.Some? {
        if closeFails.Some? {
          return closeFails;
        }
        events := events + [BrowserClosed(browser.value)];
        browser := None;
      }
      if playwright.Some? {
        if stopFails.Some? {
          return stopFails;
        }
        events := events + [PlaywrightStopped(playwright.value)];
        playwright := None;
      }
    }

    /** `async with manager.new_context() as context: <body>`. Before `start`
        it raises RuntimeError and opens nothing; otherwise the context gets the
        manager's timeout and viewport, and its `close` is called whether the
        body returns or raises. The body's exception propagates after the close,
        unless the close itself raises (`closeFails`), whose exception then
        replaces it. */
    method WithContext(contextFails: Option<Exc>, body: Option<Exc>, closeFails: Option<Exc>) returns (raised: Option<Exc>)
      modifies this`events, this`nextHandle
      ensures browser.None? ==> raised == Some(Exc(RuntimeError, NotStartedMessage)) && events == old(events)
      ensures browser.Some? && contextFails.Some? ==> raised == contextFails && events == old(events)
      ensures browser.Some? && contextFails.None? ==>
        raised == (if closeFails.Some? then closeFails else body)
        && events == old(events) + [ContextOpened(old(nextHandle), timeout, viewport)]
          + (if closeFails.None? then [ContextClosed(old(nextHandle))] else [])
    {
      if browser.None? {
        return Some(Exc(RuntimeError, NotStartedMessage));
      }
      if contextFails.Some? {
        return contextFails;
      }
      var context := nextHandle;
      nextHandle := nextHandle + 1;
      events := events + [ContextOpened(context, timeout, viewport)];
      raised := body;  // the body runs here; the finally clause closes the context
      if closeFails.Some? {
        raised := closeFails;
      } else {
        events := events + [ContextClosed(context)];
      }
    }

    /** `async with manager.new_page() as page: <body>`: a page in a fresh
        context. The page's `close` is called before the context's, on every
        exit path; when `new_page` itself raises only the context is opened and
        closed. A raising page close (`pageCloseFails`) replaces the body's
        exception, and a raising context close (`contextCloseFails`) replaces
        whatever was propagating. */
    method WithPage(contextFails: Option<Exc>, pageFails: Option<Exc>, body: Option<Exc>,
                    pageCloseFails: Option<Exc>, contextCloseFails: Option<Exc>) returns (raised: Option<Exc>)
      modifies this`events, this`nextHandle
      ensures browser.None? ==> raised == Some(Exc(RuntimeError, NotStartedMessage)) && events == old(events)
      ensures browser.Some? && contextFails.Some? ==> raised == contextFails && events == old(events)
      ensures browser.Some? && contextFails.None? && pageFails.Some? ==>
        raised == (if contextCloseFails.Some? then contextCloseFails else pageFails)
        && events == old(events) + [ContextOpened(old(nextHandle), timeout, viewport)]
          + (if contextCloseFails.None? then [ContextClosed(old(nextHandle))] else [])
      ensures browser.Some? && contextFails.None? && pageFails.None? ==>
        var c := old(nextHandle);
        raised == (if contextCloseFails.Some? then contextCloseFails else if pageCloseFails.Some? then pageCloseFails else body)
        && events == old(events) + [ContextOpened(c, timeout, viewport), PageOpened(c + 1, c)]
          + (if pageCloseFails.None? then [PageClosed(c + 1)] else [])
          + (if contextCloseFails.None? then [ContextClosed(c)] else [])
    {
      if browser.None? {
        return Some(Exc(RuntimeError, NotStartedMessage));
      }
      if contextFails.Some? {
        return contextFails;
      }
      var context := nextHandle;
      nextHandle := nextHandle + 1;
      events := events + [ContextOpened(context, timeout, viewport)];
      if pageFails.Some? {
        raised := pageFails;
      } else {
        var page := nextHandle;
        nextHandle := nextHandle + 1;
        events := events + [PageOpened(page, context)];
        raised := body;  // the body runs with the page; the inner finally closes it
        if pageCloseFails.Some? {
          raised := pageCloseFails;
        } else {
          events := events + [PageClosed(page)];
        }
      }
      if contextCloseFails.Some? {
        raised := contextCloseFails;
      } else {
        events := events + [ContextClosed(context)];
      }
    }

    /** `__aenter__`: starts the manager. */
    method Enter(playwrightFails: Option<Exc>, launchFails: Option<Exc>) returns (raised: Option<Exc>)
      modifies this
      ensures playwrightFails.Some? ==>
        raised == playwrightFails && playwright == old(playwright) && browser == old(browser) && events == old(events)
      ensures playwrightFails.None? ==> playwright == Some(old(nextHandle))
      ensures playwrightFails.None? && launchFails.Some? ==>
        raised == launchFails && browser == old(browser) && events == old(events) + [PlaywrightStarted(old(nextHandle))]
      ensures playwrightFails.None? && launchFails.None? ==>
        raised == None && browser == Some(old(nextHandle) + 1)
        && events == old(events) + [PlaywrightStarted(old(nextHandle)), BrowserLaunched(old(nextHandle) + 1, headless)]
    {
      raised := Start(playwrightFails, launchFails);
    }

    /** `__aexit__`: stops the manager, whatever the block did; what `stop`
        raises propagates from the `async with`. */
    method Exit(closeFails: Option<Exc>, stopFails: Option<Exc>) returns (raised: Option<Exc>)
      modifies this
      ensures nextHandle == old(nextHandle)
      ensures old(browser).Some? && closeFails.Some? ==>
        raised == closeFails && browser == old(browser) && playwright == old(playwright) && events == old(events)
      ensures old(browser).None? || closeFails.None? ==>
        browser == None
        && (old(playwright).Some? && stopFails.Some? ==> raised == stopFails && playwright == old(playwright))
        && (old(playwright).None? || stopFails.None? ==> raised == None && playwright == None)
        && events == old(events)
          + (if old(browser).Some? then [BrowserClosed(old(browser).value)] else [])
          + (if old(playwright).Some? && stopFails.None? then [PlaywrightStopped(old(playwright).value)] else [])
    {
      raised := Stop(closeFails, stopFails);
    }
  }

  /** A whole `async with AsyncBrowserManager(config) as manager: <block>` on a
      fresh manager: when both start steps succeed, the block runs and then
      the browser is closed and Playwright stopped; an exception from that
      teardown replaces the block's. When `__aenter__` raises, `__aexit__` is
      not called, so a Playwright started before a failed launch is left
      running. */
  method UseManager(config: BrowserConfig, playwrightFails: Option<Exc>, launchFails: Option<Exc>, block: Option<Exc>,
                    closeFails: Option<Exc>, stopFails: Option<Exc>)
    returns (raised: Option<Exc>, events: seq<BrowserEvent>)
    ensures playwrightFails.Some? ==> raised == playwrightFails && events == []
    ensures playwrightFails.None? && launchFails.Some? ==> raised == launchFails && events == [PlaywrightStarted(0)]
    ensures playwrightFails.None? && launchFails.None? ==>
      var headless := if config.headless.Some? then config.headless.value else true;
      raised == (if closeFails.Some? then closeFails else if stopFails.Some? then stopFails else block)
      && events == [PlaywrightStarted(0), BrowserLaunched(1, headless)]
        + (if closeFails.None? then [BrowserClosed(1)] else [])
        + (if closeFails.None? && stopFails.None? then [PlaywrightStopped(0)] else [])
  {
    var manager := new AsyncBrowserManager(config);
    raised := manager.Enter(playwrightFails, launchFails);
    if raised.Some? {
      return raised, manager.events;
    }
    raised := block;  // the with-block runs here
    var exitRaised := manager.Exit(closeFails, stopFails);
    if exitRaised.Some? {
      raised := exitRaised;
    }
    events := manager.events;
  }
}
