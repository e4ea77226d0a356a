/** Chart capture: which chart files a symbol ends up with. The candlestick and
    Point & Figure sub-captures each fill a dict of saved files, `capture`
    merges them and drops the ones that raised an Exception. Page interactions are oracles:
    what a selector shows, whether a download or a save succeeds. */
module ChartCapture {
  import opened Common
  import opened Text
  import opened Utils

  // ---------------------------------------------------------------------------
  // Quote escaping in `_wait_for_chart_update`
  // ---------------------------------------------------------------------------

  /** `old_src.replace("'", "\\'").replace('"', '\\"')`. */
  function EscapeQuotes(s: string): (r: string)
    ensures forall c :: c in r ==> c in s || c in "\\'\""
  {
    ReplaceAllChars(s, "'", "\\'");
    ReplaceAllChars(ReplaceAll(s, "'", "\\'"), "\"", "\\\"");
    ReplaceAll(ReplaceAll(s, "'", "\\'"), "\"", "\\\"")
  }

  function EscapeChar(c: char): string {
    if c == '\'' then "\\'" else if c == '"' then "\\\"" else [c]
  }

  /** The intended escaping, one character at a time. */
  function Escaped(s: string): (r: string)
    ensures |r| == |s| + Count(s, '\'') + Count(s, '"')
  {
    if |s| == 0 then "" else EscapeChar(s[0]) + Escaped(s[1..])
  }

  lemma {:induction false} MapCharAppend(a: string, b: string, c: char, rep: string)
    ensures MapChar(a + b, c, rep) == MapChar(a, c, rep) + MapChar(b, c, rep)
  {
    if |a| > 0 {
      assert (a + b)[1..] == a[1..] + b;
      MapCharAppend(a[1..], b, c, rep);
    } else {
      assert a + b == b;
    }
  }

  lemma {:induction false} TwoMapsAreEscaped(s: string)
    ensures MapChar(MapChar(s, '\'', "\\'"), '"', "\\\"") == Escaped(s)
  {
    if |s| > 0 {
      var head := if s[0] == '\'' then "\\'" else [s[0]];
      assert MapChar(s, '\'', "\\'") == head + MapChar(s[1..], '\'', "\\'");
      MapCharAppend(head, MapChar(s[1..], '\'', "\\'"), '"', "\\\"");
      assert MapChar(head, '"', "\\\"") == EscapeChar(s[0]) by {
        if s[0] == '\'' {
          assert head[1..] == "'";
          assert MapChar(head[1..], '"', "\\\"") == "'" + MapChar(head[1..][1..], '"', "\\\"");
        } else {
          assert head[1..] == [];
        }
      }
      TwoMapsAreEscaped(s[1..]);
    }
  }

  /** Each `'` becomes `\'`, each `"` becomes `\"`, every other character is
      kept; so the output is longer than the input by the number of quotes. */
  lemma EscapeQuotesIsPerCharacter(s: string)
    ensures EscapeQuotes(s) == Escaped(s)
    ensures |EscapeQuotes(s)| == |s| + Count(s, '\'') + Count(s, '"')
  {
    ReplaceCharIsMapChar(s, '\'', "\\'");
    ReplaceCharIsMapChar(MapChar(s, '\'', "\\'"), '"', "\\\"");
    TwoMapsAreEscaped(s);
  }

  /** Every `"` in `r` follows a backslash. */
  predicate QuotesPrefixed(r: string) {
    forall i :: 0 <= i < |r| && r[i] == '"' ==> i > 0 && r[i - 1] == '\\'
  }

  /** In the escaped text every `"` follows a backslash. (That alone does not
      keep the literal closed: a backslash of the src itself is not escaped,
      see `BackslashBreaksLiteral`.) */
  lemma {:induction false} EscapedQuotesArePrefixed(s: string)
    ensures QuotesPrefixed(Escaped(s))
  {
    if |s| > 0 {
      EscapedQuotesArePrefixed(s[1..]);
      var h, t := EscapeChar(s[0]), Escaped(s[1..]);
      var r := Escaped(s);
      assert r == h + t;
      forall i | 0 <= i < |r| && r[i] == '"' ensures i > 0 && r[i - 1] == '\\' {
        if i < |h| {
          assert h[i] == '"';
          assert s[0] == '"' && i == 1 && r[0] == h[0] == '\\';
        } else {
          var k := i - |h|;
          assert t[k] == '"';
          assert k > 0 && t[k - 1] == '\\';
          assert r[i - 1] == t[k - 1];
        }
      }
    }
  }

  /** How JavaScript reads the body of the double-quoted literal
      `"{escaped_src}"`, up to the closing quote that follows it: the string
      value, or None when the body does not hold one literal (an unescaped `"`
      ends it early, a line break is not allowed, a trailing `\` escapes the
      closing quote). An escape `\c` is read as `c`, which is what the escapes
      `\'` and `\"` mean. */
  function JsLiteral(t: string): Option<string>
    decreases |t|
  {
    if |t| == 0 then Some("")
    else if t[0] == '"' || t[0] == '\n' || t[0] == '\r' then None
    else if t[0] == '\\' then
      if |t| == 1 then None
      else match JsLiteral(t[2..])
        case Some(v) => Some([t[1]] + v)
        case None => None
    else match JsLiteral(t[1..])
      case Some(v) => Some([t[0]] + v)
      case None => None
  }

  /** A src without backslashes or line breaks. */
  predicate PlainSrc(s: string) {
    forall i :: 0 <= i < |s| ==> s[i] != '\\' && s[i] != '\n' && s[i] != '\r'
  }

  /** For a plain src the escaped text is one JavaScript literal whose value is
      the src itself, so the page-side comparison sees the old src unchanged. */
  lemma EscapedReadsBack(s: string)
    requires PlainSrc(s)
    ensures JsLiteral(EscapeQuotes(s)) == Some(s)
  {
    EscapeQuotesIsPerCharacter(s);
    EscapedReadsBackPerCharacter(s);
  }

  lemma {:induction false} EscapedReadsBackPerCharacter(s: string)
    requires PlainSrc(s)
    ensures JsLiteral(Escaped(s)) == Some(s)
  {
    if |s| > 0 {
      var t := Escaped(s[1..]);
      EscapedReadsBackPerCharacter(s[1..]);
      var e := EscapeChar(s[0]) + t;
      assert Escaped(s) == e;
      if s[0] == '\'' || s[0] == '"' {
        assert e[0] == '\\' && e[1] == s[0] && e[2..] == t;
      } else {
        assert e[0] == s[0] && e[1..] == t;
      }
      assert [s[0]] + s[1..] == s;
    }
  }

  /** Quotes alone are escaped, so a src holding a backslash before a quote,
      such as `a\"b`, no longer reads back as one literal: the escaped text
      has `\\"`, a backslash followed by a quote that ends the literal. */
  lemma BackslashBreaksLiteral()
    ensures var s := ['a', '\\', '"', 'b'];
      EscapeQuotes(s) == ['a', '\\', '\\', '"', 'b'] && JsLiteral(EscapeQuotes(s)) == None
  {
    var s := ['a', '\\', '"', 'b'];
    EscapeQuotesIsPerCharacter(s);
    assert s[1..] == ['\\', '"', 'b'] && s[1..][1..] == ['"', 'b'] && s[1..][1..][1..] == ['b'];
    var e := ['a', '\\', '\\', '"', 'b'];
    assert e[1..] == ['\\', '\\', '"', 'b'] && e[1..][2..] == ['"', 'b'];
  }

  // ---------------------------------------------------------------------------
  // The URL fix-up in `_capture_pnf_chart`
  // ---------------------------------------------------------------------------

  const SiteRoot: string := "https://stockcharts.com"

  /** A src starting with "/" is made absolute; any other is kept. */
  function FixSrc(src: string): (url: string)
    ensures StartsWith(src, "/") ==> url == SiteRoot + src
    ensures !StartsWith(src, "/") ==> url == src
  {
    if StartsWith(src, "/") then SiteRoot + src else src
  }

  /** A fixed-up URL never starts with "/", and fixing it again changes nothing. */
  lemma FixSrcAbsolute(src: string)
    ensures !StartsWith(FixSrc(src), "/")
    ensures FixSrc(FixSrc(src)) == FixSrc(src)
  {
    if StartsWith(src, "/") {
      assert FixSrc(src)[0] == 'h';
    }
  }

  // ---------------------------------------------------------------------------
  // The selector loops of `_set_period` and `_set_range`
  // ---------------------------------------------------------------------------

  datatype Dropdown = PeriodMenu | RangeMenu

  function ToggleId(menu: Dropdown): string {
    match menu
    case PeriodMenu => "#period-dropdown-menu-toggle-button"
    case RangeMenu => "#range-dropdown-menu-toggle-button"
  }

  /** The option selectors tried, in order: four for the period, three for the range. */
  function OptionSelectors(menu: Dropdown, value: string): (sels: seq<string>)
    ensures |sels| == (if menu == PeriodMenu then 4 else 3)
  {
    var common := [
      "button.ellipsis-overflow:text-is(\"" + value + "\")",
      "button:text-is(\"" + value + "\")",
      "[role=\"menuitem\"]:text-is(\"" + value + "\")"];
    if menu == PeriodMenu then common + ["li:text-is(\"" + value + "\")"] else common
  }

  /** What probing one option selector does: not visible, raises (and is
      skipped), or is visible and gets clicked. */
  datatype Probe = Hidden | Raises | Clicks

  /** The first selector that gets clicked. */
  function FirstClicked(sels: seq<string>, probe: string -> Probe): (r: Option<nat>)
    ensures r.Some? ==> (r.value < |sels| && probe(sels[r.value]) == Clicks
      && forall k :: 0 <= k < r.value ==> probe(sels[k]) != Clicks)
    ensures r.None? ==> forall k :: 0 <= k < |sels| ==> probe(sels[k]) != Clicks
  {
    if |sels| == 0 then None
    else if probe(sels[0]) == Clicks then Some(0)
    else match FirstClicked(sels[1..], probe)
      case Some(k) => Some(k + 1)
      case None => None
  }

  /** The option loop of `_set_dropdown`: the selectors in order until one is
      visible and clicked. */
  method FindOption(sels: seq<string>, probe: string -> Probe) returns (found: Option<nat>)
    ensures found == FirstClicked(sels, probe)
  {
    var i := 0;
    while i < |sels|
      invariant 0 <= i <= |sels|
      invariant forall k :: 0 <= k < i ==> probe(sels[k]) != Clicks
    {
      if probe(sels[i]) == Clicks {
        return Some(i);
      }
      i := i + 1;
    }
    return None;
  }

  /** How `_wait_for_chart_update` ends: the src changed, it timed out, or it
      raised something other than a timeout. */
  datatype WaitOutcome = SrcChanged | WaitTimedOut | WaitRaised

  /** What `_set_period` / `_set_range` do to the page. */
  datatype PageAction =
    | ClickToggle(id: string)
    | ClickOption(selector: string)
    | AwaitSrcChange(escapedSrc: string, timeout: int)
    | Pause(ms: int)

  /** `_set_period(page, value)` for PeriodMenu, `_set_range(page, value)` for
      RangeMenu. `oldSrc` is the chart's src before the change, "" when the
      chart is hidden or has none. Every exception is caught and logged, so the
      method only ever returns what it did. */
  method SetDropdown(menu: Dropdown, value: string, oldSrc: string, toggleVisible: bool, menuOpens: bool,
                     probe: string -> Probe, wait: WaitOutcome)
    returns (actions: seq<PageAction>)
    ensures !toggleVisible ==> actions == []
    ensures toggleVisible && (!menuOpens || FirstClicked(OptionSelectors(menu, value), probe).None?) ==>
      actions == [ClickToggle(ToggleId(menu))]
    ensures toggleVisible && menuOpens && FirstClicked(OptionSelectors(menu, value), probe).Some? ==>
      var clicked := OptionSelectors(menu, value)[FirstClicked(OptionSelectors(menu, value), probe).value];
      actions == [ClickToggle(ToggleId(menu)), ClickOption(clicked)]
        + (if oldSrc == "" then [Pause(1000)]
           else [AwaitSrcChange(EscapeQuotes(oldSrc), 5000)] + (if wait == WaitTimedOut then [Pause(1000)] else []))
  {
    actions := [];
    if !toggleVisible {
      return;  // "dropdown button not found"
    }
    actions := actions + [ClickToggle(ToggleId(menu))];
    if !menuOpens {
      return;  // wait_for_selector raised; caught by the outer handler
    }
    var sels := OptionSelectors(menu, value);
    var found := FindOption(sels, probe);
    if found.None? {
      return;  // "option not found": no wait for a chart update
    }
    actions := actions + [ClickOption(sels[found.value])];
    if oldSrc != "" {
      actions := actions + [AwaitSrcChange(EscapeQuotes(oldSrc), 5000)];
      if wait == WaitTimedOut {
        actions := actions + [Pause(1000)];
      }
    } else {
      actions := actions + [Pause(1000)];
    }
  }

  // ---------------------------------------------------------------------------
  // The indicator loop
  // ---------------------------------------------------------------------------

  /** `indicator.get("name", "").upper() == "RSI"`. */
  predicate IsRsi(indicator: map<string, string>) {
    Upper(Get(indicator, "name", "")) == "RSI"
  }

  /** The loop over the configured indicators: `_add_rsi_indicator` runs once
      for each indicator named RSI in any letter case, in configuration order.
      The result lists the positions at which it ran. */
  method ApplyIndicators(indicators: seq<map<string, string>>) returns (added: seq<nat>)
    ensures forall i :: i in added <==> 0 <= i < |indicators| && IsRsi(indicators[i])
    ensures forall a, b :: 0 <= a < b < |added| ==> added[a] < added[b]
  {
    added := [];
    for i := 0 to |indicators|
      invariant forall k :: k in added <==> 0 <= k < i && IsRsi(indicators[k])
      invariant forall a, b :: 0 <= a < b < |added| ==> added[a] < added[b]
      invariant forall a :: 0 <= a < |added| ==> added[a] < i
    {
      if IsRsi(indicators[i]) {
        added := added + [i];
      }
    }
  }

  // ---------------------------------------------------------------------------
  // `_capture_candlestick_charts`
  // ---------------------------------------------------------------------------

  /** The page a candlestick capture works on. `navigation`: what `goto` or
      the wait for the chart element raises, if anything. `renderWait(k)`: what
      the k-th of the three `_wait_for_chart` calls raises, if anything (a
      timeout is caught there, anything else propagates). `saves(v)`:
      `_save_chart_image` returns True for variant `v`. */
  datatype CandlePage = CandlePage(
    navigation: Option<Exc>,
    renderWait: nat -> Option<Exc>,
    saves: string -> bool)

  /** The wait raises past `_wait_for_chart`. */
  predicate Escapes(w: Option<Exc>) {
    w.Some? && w.value.cls != PlaywrightTimeout
  }

  /** The exception that ends a candlestick capture early, if any. */
  function CandleError(page: CandlePage): (r: Option<Exc>)
    ensures r.None? <==> (page.navigation.None? && !Escapes(page.renderWait(0))
      && !Escapes(page.renderWait(1)) && !Escapes(page.renderWait(2)))
  {
    if page.navigation.Some? then page.navigation
    else if Escapes(page.renderWait(0)) then page.renderWait(0)
    else if Escapes(page.renderWait(1)) then page.renderWait(1)
    else if Escapes(page.renderWait(2)) then page.renderWait(2)
    else None
  }

  /** `result["daily"]` and `result["weekly"]` are set for the saves that
      succeed; an uncaught page error discards the dict and propagates. */
  method CaptureCandlestick(page: CandlePage, symbol: string, indicators: seq<map<string, string>>)
    returns (r: Attempt<Artifacts>, rsiAdded: seq<nat>)
    ensures CandleError(page).Some? ==> r == Raised(CandleError(page).value)
    ensures r.Returned? ==> forall k :: k in r.value <==> (k == "daily" || k == "weekly") && page.saves(k)
    ensures r.Returned? ==> forall k :: k in r.value ==> r.value[k] == ChartFileName(symbol, k)
    ensures CandleError(page).None? ==> r.Returned?
    ensures page.navigation.None? ==> forall i :: i in rsiAdded <==> 0 <= i < |indicators| && IsRsi(indicators[i])
  {
    rsiAdded := [];
    if page.navigation.Some? {
      return Raised(page.navigation.value), rsiAdded;
    }
    rsiAdded := ApplyIndicators(indicators);
    if Escapes(page.renderWait(0)) {
      return Raised(page.renderWait(0).value), rsiAdded;
    }
    var result: Artifacts := map[];
    // _set_period(page, "Daily") and _click_update_button catch every exception
    if Escapes(page.renderWait(1)) {
      return Raised(page.renderWait(1).value), rsiAdded;
    }
    if page.saves("daily") {
      result := result["daily" := ChartFileName(symbol, "daily")];
    }
    // _set_period(page, "Weekly"), _set_range(page, "5 Years") and _click_update_button
    if Escapes(page.renderWait(2)) {
      return Raised(page.renderWait(2).value), rsiAdded;
    }
    if page.saves("weekly") {
      result := result["weekly" := ChartFileName(symbol, "weekly")];
    }
    r := Returned(result);
  }

  // ---------------------------------------------------------------------------
  // `_capture_pnf_chart` and `_capture_pnf_charts`
  // ---------------------------------------------------------------------------

  const PnfImageSelectors: seq<string> :=
    ["img[src*=\"c-sc\"]", "img[src*=\"pnf\"]", "#pnfChart", ".pnf-chart img", "img[alt*=\"Point\"]"]

  const PnfContainerSelectors: seq<string> :=
    ["#chartContainer", ".chart-container", "#pnfChartContainer", "table img"]

  /** Probing one image selector: not visible, raises, or visible with a src
      ("" when it has none). */
  datatype ImageProbe = ImgHidden | ImgRaises | ImgShown(src: string)

  /** Probing one container: not visible, visible and screenshotted, or raises
      (which ends the whole fallback). */
  datatype ContainerProbe = BoxHidden | BoxSaved | BoxRaises

  /** One visit of the P&F page. `loadFails`: navigation, the wait for the
      first image or the weekly form submission raised. `fetchOk(url)`: the
      download of `url` answered ok and was written to disk. */
  datatype PnfPage = PnfPage(
    loadFails: bool,
    image: string -> ImageProbe,
    fetchOk: string -> bool,
    container: string -> ContainerProbe)

  /** The image selector yields a src whose download succeeds. */
  predicate ImageSaves(page: PnfPage, sel: string) {
    page.image(sel).ImgShown? && page.image(sel).src != "" && page.fetchOk(FixSrc(page.image(sel).src))
  }

  /** The URL requested for a selector, if any. */
  function RequestOf(page: PnfPage, sel: string): seq<string> {
    if page.image(sel).ImgShown? && page.image(sel).src != "" then [FixSrc(page.image(sel).src)] else []
  }

  /** The URLs downloaded while trying `sels` in order, up to the first that saves. */
  function Requested(page: PnfPage, sels: seq<string>): seq<string> {
    if |sels| == 0 then []
    else if ImageSaves(page, sels[0]) then RequestOf(page, sels[0])
    else RequestOf(page, sels[0]) + Requested(page, sels[1..])
  }

  /** Some selector of `sels` yields a saved image. */
  predicate AnyImageSaves(page: PnfPage, sels: seq<string>) {
    exists k :: 0 <= k < |sels| && ImageSaves(page, sels[k])
  }

  /** The container fallback saves: the first container that is not hidden is
      screenshotted. */
  function BoxFallback(page: PnfPage, sels: seq<string>): (saved: bool)
    ensures saved ==> exists k :: 0 <= k < |sels| && page.container(sels[k]) == BoxSaved
  {
    if |sels| == 0 then false
    else if page.container(sels[0]) == BoxHidden then BoxFallback(page, sels[1..])
    else page.container(sels[0]) == BoxSaved
  }

  /** `_capture_pnf_chart` returns True. */
  predicate PnfSaved(page: PnfPage) {
    !page.loadFails && (AnyImageSaves(page, PnfImageSelectors) || BoxFallback(page, PnfContainerSelectors))
  }

  /** Every downloaded URL is absolute. */
  lemma {:induction false} RequestedAreAbsolute(page: PnfPage, sels: seq<string>)
    ensures forall u :: u in Requested(page, sels) ==> !StartsWith(u, "/")
  {
    if |sels| > 0 {
      var sel := sels[0];
      if page.image(sel).ImgShown? && page.image(sel).src != "" {
        FixSrcAbsolute(page.image(sel).src);
      }
      RequestedAreAbsolute(page, sels[1..]);
    }
  }

  /** `_capture_pnf_chart`: try each image selector until a download is saved,
      then fall back to screenshotting the first visible container. Every
      exception is caught: the result is False, never an exception. */
  method CapturePnfChart(page: PnfPage) returns (saved: bool, requests: seq<string>)
    ensures saved == PnfSaved(page)
    ensures requests == (if page.loadFails then [] else Requested(page, PnfImageSelectors))
  {
    requests := [];
    if page.loadFails {
      return false, requests;
    }
    saved, requests := TryImages(page, PnfImageSelectors);
    if !saved {
      saved := TryContainers(page, PnfContainerSelectors);
    }
  }

  /** The first strategy of `_capture_pnf_chart`: the image selectors in order,
      each visible one with a src downloaded, until a download is saved. */
  method TryImages(page: PnfPage, sels: seq<string>) returns (saved: bool, requests: seq<string>)
    ensures saved == AnyImageSaves(page, sels)
    ensures requests == Requested(page, sels)
  {
    requests := [];
    var i := 0;
    while i < |sels|
      invariant 0 <= i <= |sels|
      invariant forall k :: 0 <= k < i ==> !ImageSaves(page, sels[k])
      invariant Requested(page, sels) == requests + Requested(page, sels[i..])
    {
      RequestedStep(page, sels, i);
      ghost var before, rest := requests, Requested(page, sels[i + 1..]);
      var probe := page.image(sels[i]);
      if probe.ImgShown? && probe.src != "" {
        var url := FixSrc(probe.src);
        assert RequestOf(page, sels[i]) == [url];
        requests := requests + [url];
        if page.fetchOk(url) {
          assert ImageSaves(page, sels[i]);
          return true, requests;
        }
      }
      assert requests == before + RequestOf(page, sels[i]);
      ConcatAssoc(before, RequestOf(page, sels[i]), rest);
      i := i + 1;
    }
    saved := false;
  }

  lemma ConcatAssoc(a: seq<string>, b: seq<string>, c: seq<string>)
    ensures a + (b + c) == (a + b) + c
  {
  }

  /** Trying the selectors from `i` on: the request of selector `i`, then, unless
      it saved, those of the rest. */
  lemma RequestedStep(page: PnfPage, sels: seq<string>, i: nat)
    requires i < |sels|
    ensures Requested(page, sels[i..]) == if ImageSaves(page, sels[i]) then RequestOf(page, sels[i])
      else RequestOf(page, sels[i]) + Requested(page, sels[i + 1..])
  {
    assert sels[i..][1..] == sels[i + 1..];
  }

  /** The fallback of `_capture_pnf_chart`: the first visible container is
      screenshotted; an exception there ends the fallback unsaved. */
  method TryContainers(page: PnfPage, boxes: seq<string>) returns (saved: bool)
    ensures saved == BoxFallback(page, boxes)
  {
    var j := 0;
    while j < |boxes|
      invariant 0 <= j <= |boxes|
      invariant BoxFallback(page, boxes) == BoxFallback(page, boxes[j..])
    {
      assert boxes[j..][1..] == boxes[j + 1..];
      var box := page.container(boxes[j]);
      if box == BoxSaved {
        return true;
      } else if box == BoxRaises {
        return false;  // the fallback's handler logs it
      }
      j := j + 1;
    }
    saved := false;
  }

  /** `_capture_pnf_charts`: `result["pnf_daily"]` and `result["pnf_weekly"]`
      for the captures that return True. It never raises. */
  method CapturePnfCharts(symbol: string, daily: PnfPage, weekly: PnfPage) returns (result: Artifacts)
    ensures forall k :: k in result <==> (k == "pnf_daily" && PnfSaved(daily)) || (k == "pnf_weekly" && PnfSaved(weekly))
    ensures forall k :: k in result ==> result[k] == ChartFileName(symbol, k)
  {
    result := map[];
    var savedDaily, dailyRequests := CapturePnfChart(daily);
    if savedDaily {
      result := result["pnf_daily" := ChartFileName(symbol, "pnf_daily")];
    }
    var savedWeekly, weeklyRequests := CapturePnfChart(weekly);
    if savedWeekly {
      result := result["pnf_weekly" := ChartFileName(symbol, "pnf_weekly")];
    }
  }

  // ---------------------------------------------------------------------------
  // `capture`: the merge
  // ---------------------------------------------------------------------------

  /** The dict of a sub-result, empty for an exception. */
  function DictOf(a: Attempt<Artifacts>): Artifacts {
    if a.Returned? then a.value else map[]
  }

  /** `merged.update(r)` for each dict result, in order; exceptions are dropped. */
  function MergeAll(results: seq<Attempt<Artifacts>>): Artifacts {
    if |results| == 0 then map[]
    else
      var last := results[|results| - 1];
      MergeAll(results[..|results| - 1]) + DictOf(last)
  }

  /** The merge loop of `capture`. */
  method Merge(results: seq<Attempt<Artifacts>>) returns (merged: Artifacts)
    ensures merged == MergeAll(results)
  {
    merged := map[];
    for i := 0 to |results|
      invariant merged == MergeAll(results[..i])
    {
      assert results[..i + 1][..i] == results[..i];
      if results[i].Returned? {
        merged := merged + results[i].value;
      }
    }
    assert results[..|results|] == results;
  }

  /** A key is merged iff some returned dict has it; its path comes from the
      last such dict. */
  lemma {:induction false} MergeAllKeys(results: seq<Attempt<Artifacts>>)
    ensures forall k :: k in MergeAll(results) <==>
      exists i :: 0 <= i < |results| && results[i].Returned? && k in results[i].value
  {
    if |results| > 0 {
      var init := results[..|results| - 1];
      MergeAllKeys(init);
      forall k ensures k in MergeAll(results) <==>
        exists i :: 0 <= i < |results| && results[i].Returned? && k in results[i].value
      {
        if exists i :: 0 <= i < |results| && results[i].Returned? && k in results[i].value {
          var i :| 0 <= i < |results| && results[i].Returned? && k in results[i].value;
          if i < |results| - 1 {
            assert init[i] == results[i];
          }
        }
        if k in MergeAll(init) {
          var i :| 0 <= i < |init| && init[i].Returned? && k in init[i].value;
          assert results[i] == init[i];
        }
      }
    }
  }

  /** Each merged path is the path of some returned dict. */
  lemma {:induction false} MergeAllValues(results: seq<Attempt<Artifacts>>)
    ensures forall k :: k in MergeAll(results) ==>
      exists i :: 0 <= i < |results| && results[i].Returned? && k in results[i].value
        && MergeAll(results)[k] == results[i].value[k]
  {
    if |results| > 0 {
      var init := results[..|results| - 1];
      MergeAllValues(init);
      forall k | k in MergeAll(results) ensures
        exists i :: 0 <= i < |results| && results[i].Returned? && k in results[i].value
          && MergeAll(results)[k] == results[i].value[k]
      {
        var last := results[|results| - 1];
        if last.Returned? && k in last.value {
          assert MergeAll(results)[k] == last.value[k];
        } else {
          assert k in MergeAll(init) && MergeAll(results)[k] == MergeAll(init)[k];
          var i :| 0 <= i < |init| && init[i].Returned? && k in init[i].value && MergeAll(init)[k] == init[i].value[k];
          assert results[i] == init[i];
        }
      }
    }
  }

  /** The keys of a dict result, none for an exception. */
  function KeysOf(a: Attempt<Artifacts>): set<string> {
    if a.Returned? then a.value.Keys else {}
  }

  /** With disjoint key sets the order of the two sub-results does not matter. */
  lemma MergeOrderIrrelevant(a: Attempt<Artifacts>, b: Attempt<Artifacts>)
    requires KeysOf(a) !! KeysOf(b)
    ensures MergeAll([a, b]) == MergeAll([b, a])
  {
    assert [a, b][..1] == [a];
    assert [b, a][..1] == [b];
    assert [a][..0] == [] && [b][..0] == [];
  }

  /** What ends the candlestick sub-capture early: `new_page` raising, or an
      uncaught page error. */
  function CandleFailure(candlePage: Option<Exc>, candle: CandlePage): Option<Exc> {
    if candlePage.Some? then candlePage else CandleError(candle)
  }

  /** An exception that `except Exception` does not catch. */
  predicate Interrupting(e: Option<Exc>) {
    e.Some? && !IsException(e.value.cls)
  }

  /** `capture(browser, symbol)`: the candlestick and the P&F capture, each on
      its own page (`candlePage` / `pnfPage`: what `new_page` raises, if
      anything), gathered and merged. A sub-capture failing with an Exception
      only loses its own keys; a KeyboardInterrupt ends `gather` and escapes
      `capture`, which raises nothing else. */
  method Capture(symbol: string, indicators: seq<map<string, string>>,
                 candlePage: Option<Exc>, candle: CandlePage,
                 pnfPage: Option<Exc>, daily: PnfPage, weekly: PnfPage)
    returns (r: Attempt<Artifacts>)
    ensures r.Returned? <==> !Interrupting(CandleFailure(candlePage, candle)) && !Interrupting(pnfPage)
    ensures Interrupting(CandleFailure(candlePage, candle)) ==> r == Raised(CandleFailure(candlePage, candle).value)
    ensures !Interrupting(CandleFailure(candlePage, candle)) && Interrupting(pnfPage) ==> r == Raised(pnfPage.value)
    ensures r.Returned? ==> forall k :: k in r.value <==>
      ((k == "daily" || k == "weekly") && CandleFailure(candlePage, candle).None? && candle.saves(k))
      || (k == "pnf_daily" && pnfPage.None? && PnfSaved(daily))
      || (k == "pnf_weekly" && pnfPage.None? && PnfSaved(weekly))
    ensures r.Returned? ==> forall k :: k in r.value ==> k in Variants && r.value[k] == ChartFileName(symbol, k)
  {
    var candleResult: Attempt<Artifacts>;
    if candlePage.Some? {
      candleResult := Raised(candlePage.value);
    } else {
      var rsiAdded;
      candleResult, rsiAdded := CaptureCandlestick(candle, symbol, indicators);
    }
    var pnfResult: Attempt<Artifacts>;
    if pnfPage.Some? {
      pnfResult := Raised(pnfPage.value);
    } else {
      var r := CapturePnfCharts(symbol, daily, weekly);
      pnfResult := Returned(r);
    }
    var gathered := GatherOutcome([candleResult, pnfResult]);
    if gathered.Raised? {
      return Raised(gathered.error);
    }
    var merged := Merge([candleResult, pnfResult]);
    MergeTwo(candleResult, pnfResult);
    MergedCapture(symbol, DictOf(candleResult), DictOf(pnfResult));
    r := Returned(merged);
  }

  /** The candlestick keys and the P&F keys are disjoint, so the merge keeps
      both, each with its own file name. */
  lemma MergedCapture(symbol: string, a: Artifacts, b: Artifacts)
    requires forall k :: k in a ==> (k == "daily" || k == "weekly") && a[k] == ChartFileName(symbol, k)
    requires forall k :: k in b ==> (k == "pnf_daily" || k == "pnf_weekly") && b[k] == ChartFileName(symbol, k)
    ensures forall k :: k in a + b <==> k in a || k in b
    ensures forall k :: k in a + b ==> k in Variants && (a + b)[k] == ChartFileName(symbol, k)
  {
    assert Variants[0] == "daily" && Variants[1] == "weekly" && Variants[2] == "pnf_daily" && Variants[3] == "pnf_weekly";
  }

  /** Merging two results: the second dict's keys win. */
  lemma MergeTwo(a: Attempt<Artifacts>, b: Attempt<Artifacts>)
    ensures MergeAll([a, b]) == DictOf(a) + DictOf(b)
  {
    assert [a, b][..1] == [a];
    assert [a][..0] == [];
    assert MergeAll([a]) == MergeAll([]) + DictOf(a);
    assert MergeAll([]) + DictOf(a) == DictOf(a);
  }

  /** `capture` is wrapped in `async_retry(max_attempts=3, delay=2.0,
      exceptions=(Exception,))`, but since it raises only what is not an
      Exception, the wrapper calls it exactly once and never sleeps. */
  lemma CaptureRunsOnce(call: nat -> Attempt<Artifacts>)
    requires forall n: nat :: call(n).Returned? || Interrupts(call(n))
    ensures RetrySpec(RetryPolicy(3, 2.0, 2.0, ExceptionClasses), call, AsyncioSleep).outcome == call(0)
    ensures Calls(RetrySpec(RetryPolicy(3, 2.0, 2.0, ExceptionClasses), call, AsyncioSleep).trace) == [0]
    ensures Sleeps(RetrySpec(RetryPolicy(3, 2.0, 2.0, ExceptionClasses), call, AsyncioSleep).trace) == []
  {
    var p := RetryPolicy(3, 2.0, 2.0, ExceptionClasses);
    RetryShape(p, call, AsyncioSleep);
    assert FirstStop(p, call, 0) == 0;
    assert seq(1, j => j) == [0];
  }
}
