/** The workflow of `main.py`: capture every ticker's charts inside one
    browser session, analyse the captured symbols, email the report, write the
    results document, and map the outcome to an exit code. The tickers are
    processed one after the other in list order, which is the order in which
    `asyncio.gather` returns their results. */
module Pipeline {
  import opened Common
  import opened Text
  import opened Utils
  import opened Browser
  import opened ClaudeAnalysis
  import opened EmailSender

  // ---------------------------------------------------------------------------
  // Phase 1: capture, one task per ticker
  // ---------------------------------------------------------------------------

  /** An entry of the ticker list; either key may be missing. */
  datatype Ticker = Ticker(symbol: Option<string>, name: Option<string>)

  /** The KeyError of `ticker_info["symbol"]` on an entry without a symbol. */
  const MissingSymbol: Exc := Exc(KeyError, "'symbol'")

  /** What `asyncio.gather(..., return_exceptions=True)` hands back for one
      ticker: the symbol and its charts, the symbol and the exception `capture`
      raised, or the exception the task itself raised. */
  datatype TickerOutcome =
    | Captured(symbol: string, paths: Artifacts)
    | CaptureFailed(symbol: string, error: Exc)
    | TaskFailed(error: Exc)

  /** One `process_ticker` task under `gather`. The `except Exception` around
      `capture` turns every exception into a value; only what is not an
      Exception (KeyboardInterrupt) escapes, and then escapes `gather` too. A
      missing symbol raises before the `try`, and `gather` returns it. */
  function TaskOutcome(t: Ticker, capture: string -> Attempt<Artifacts>): (o: Attempt<TickerOutcome>)
    ensures o.Raised? <==> t.symbol.Some? && capture(t.symbol.value).Raised? && !IsException(capture(t.symbol.value).error.cls)
    ensures o.Raised? ==> o.error == capture(t.symbol.value).error
    ensures t.symbol.None? ==> o == Returned(TaskFailed(MissingSymbol))
    ensures o.Returned? && t.symbol.Some? ==> !o.value.TaskFailed? && o.value.symbol == t.symbol.value
  {
    match t.symbol
    case None => Returned(TaskFailed(MissingSymbol))
    case Some(symbol) =>
      match capture(symbol)
      case Returned(paths) => Returned(Captured(symbol, paths))
      case Raised(e) => if IsException(e.cls) then Returned(CaptureFailed(symbol, e)) else Raised(e)
  }

  /** The outcomes of the tasks of `tickers`, or the first exception that
      escapes `gather`. */
  function Gathered(tickers: seq<Ticker>, capture: string -> Attempt<Artifacts>): (r: Attempt<seq<TickerOutcome>>)
    ensures r.Returned? ==> |r.value| == |tickers|
    ensures r.Raised? ==> !IsException(r.error.cls)
  {
    if |tickers| == 0 then Returned([])
    else
      match Gathered(tickers[..|tickers| - 1], capture)
      case Raised(e) => Raised(e)
      case Returned(outcomes) =>
        match TaskOutcome(tickers[|tickers| - 1], capture)
        case Raised(e) => Raised(e)
        case Returned(o) => Returned(outcomes + [o])
  }

  /** `gather` returns one outcome per ticker, in ticker order, unless some task
      lets an exception escape; then the first such exception propagates. */
  lemma {:induction false} GatheredOutcomes(tickers: seq<Ticker>, capture: string -> Attempt<Artifacts>)
    ensures Gathered(tickers, capture).Returned? <==> forall i :: 0 <= i < |tickers| ==> TaskOutcome(tickers[i], capture).Returned?
    ensures Gathered(tickers, capture).Returned? ==>
      |Gathered(tickers, capture).value| == |tickers|
      && forall i :: 0 <= i < |tickers| ==> Returned(Gathered(tickers, capture).value[i]) == TaskOutcome(tickers[i], capture)
    ensures Gathered(tickers, capture).Raised? ==>
      exists i :: (0 <= i < |tickers| && Raised(Gathered(tickers, capture).error) == TaskOutcome(tickers[i], capture)
        && forall k :: 0 <= k < i ==> TaskOutcome(tickers[k], capture).Returned?)
  {
    if |tickers| > 0 {
      var n := |tickers| - 1;
      var prefix := tickers[..n];
      GatheredOutcomes(prefix, capture);
      assert forall k :: 0 <= k < n ==> prefix[k] == tickers[k];
      var g := Gathered(tickers, capture);
      if Gathered(prefix, capture).Raised? {
        var i :| 0 <= i < n && Raised(Gathered(prefix, capture).error) == TaskOutcome(prefix[i], capture)
          && forall k :: 0 <= k < i ==> TaskOutcome(prefix[k], capture).Returned?;
        assert Raised(g.error) == TaskOutcome(tickers[i], capture);
      } else if TaskOutcome(tickers[n], capture).Raised? {
        assert Raised(g.error) == TaskOutcome(tickers[n], capture);
      }
    }
  }

  /** The capture tasks, awaited in list order. */
  method GatherCaptures(tickers: seq<Ticker>, capture: string -> Attempt<Artifacts>) returns (r: Attempt<seq<TickerOutcome>>)
    ensures r == Gathered(tickers, capture)
  {
    var outcomes: seq<TickerOutcome> := [];
    for i := 0 to |tickers|
      invariant Gathered(tickers[..i], capture) == Returned(outcomes)
    {
      assert tickers[..i + 1][..i] == tickers[..i];
      var o := TaskOutcome(tickers[i], capture);
      if o.Raised? {
        GatheredStaysRaised(tickers, capture, i + 1);
        assert tickers[..|tickers|] == tickers;
        return Raised(o.error);
      }
      outcomes := outcomes + [o.value];
    }
    assert tickers[..|tickers|] == tickers;
    r := Returned(outcomes);
  }

  /** Once an exception has escaped, later tickers do not change the outcome. */
  lemma {:induction false} GatheredStaysRaised(tickers: seq<Ticker>, capture: string -> Attempt<Artifacts>, i: nat)
    requires i <= |tickers| && Gathered(tickers[..i], capture).Raised?
    ensures Gathered(tickers, capture) == Gathered(tickers[..i], capture)
    decreases |tickers| - i
  {
    if i < |tickers| {
      assert tickers[..i + 1][..i] == tickers[..i];
      GatheredStaysRaised(tickers, capture, i + 1);
    } else {
      assert tickers[..i] == tickers;
    }
  }

  // ---------------------------------------------------------------------------
  // Splitting the outcomes into screenshots and errors
  // ---------------------------------------------------------------------------

  /** `screenshots[symbol] = paths` for each captured outcome, in order. */
  function Stored(outcomes: seq<TickerOutcome>): (d: Dict<Artifacts>)
    ensures UniqueKeys(d)
  {
    if |outcomes| == 0 then []
    else
      var prefix := Stored(outcomes[..|outcomes| - 1]);
      match outcomes[|outcomes| - 1]
      case Captured(symbol, paths) => Put(prefix, symbol, paths)
      case CaptureFailed(_, _) => prefix
      case TaskFailed(_) => prefix
  }

  /** The error entry of an outcome that is not a capture: the symbol, or
      "unknown" for an exception of the task itself. */
  function ErrorOf(o: TickerOutcome): seq<(string, Exc)> {
    match o
    case Captured(_, _) => []
    case CaptureFailed(symbol, e) => [(symbol, e)]
    case TaskFailed(e) => [("unknown", e)]
  }

  /** The `errors` list of the outcomes, in order. */
  function Errors(outcomes: seq<TickerOutcome>): seq<(string, Exc)> {
    if |outcomes| == 0 then []
    else Errors(outcomes[..|outcomes| - 1]) + ErrorOf(outcomes[|outcomes| - 1])
  }

  function CapturedCount(outcomes: seq<TickerOutcome>): nat {
    if |outcomes| == 0 then 0
    else CapturedCount(outcomes[..|outcomes| - 1]) + (if outcomes[|outcomes| - 1].Captured? then 1 else 0)
  }

  /** The charts of the last capture of `symbol`, if any. */
  function LastCapture(outcomes: seq<TickerOutcome>, symbol: string): Option<Artifacts> {
    if |outcomes| == 0 then None
    else
      var last := outcomes[|outcomes| - 1];
      if last.Captured? && last.symbol == symbol then Some(last.paths)
      else LastCapture(outcomes[..|outcomes| - 1], symbol)
  }

  /** The aggregation loop after `gather`. */
  method Aggregate(outcomes: seq<TickerOutcome>) returns (screenshots: Dict<Artifacts>, errors: seq<(string, Exc)>)
    ensures screenshots == Stored(outcomes) && errors == Errors(outcomes)
  {
    screenshots, errors := [], [];
    for i := 0 to |outcomes|
      invariant screenshots == Stored(outcomes[..i]) && errors == Errors(outcomes[..i])
    {
      assert outcomes[..i + 1][..i] == outcomes[..i];
      match outcomes[i]
      case TaskFailed(e) =>
        errors := errors + [("unknown", e)];
      case CaptureFailed(symbol, e) =>
        errors := errors + [(symbol, e)];
      case Captured(symbol, paths) =>
        screenshots := Put(screenshots, symbol, paths);
    }
    assert outcomes[..|outcomes|] == outcomes;
  }

  /** Each outcome lands in exactly one of the two: one error entry per
      outcome that is not a capture. */
  lemma {:induction false} EachOutcomeOnce(outcomes: seq<TickerOutcome>)
    ensures |Errors(outcomes)| + CapturedCount(outcomes) == |outcomes|
  {
    if |outcomes| > 0 {
      EachOutcomeOnce(outcomes[..|outcomes| - 1]);
    }
  }

  /** A symbol's screenshots are those of its last capture: an empty dict is
      stored like any other, a later capture overwrites an earlier one, and no
      other ticker's outcome affects the entry. */
  lemma {:induction false} LastCaptureWins(outcomes: seq<TickerOutcome>, symbol: string)
    ensures Lookup(Stored(outcomes), symbol) == LastCapture(outcomes, symbol)
  {
    if |outcomes| > 0 {
      LastCaptureWins(outcomes[..|outcomes| - 1], symbol);
    }
  }

  /** The symbols with screenshots are exactly the captured ones. */
  lemma {:induction false} StoredSymbols(outcomes: seq<TickerOutcome>, symbol: string)
    ensures HasKey(Stored(outcomes), symbol)
      <==> exists i :: 0 <= i < |outcomes| && outcomes[i].Captured? && outcomes[i].symbol == symbol
  {
    if |outcomes| > 0 {
      var n := |outcomes| - 1;
      var prefix := outcomes[..n];
      StoredSymbols(prefix, symbol);
      if exists i :: 0 <= i < |outcomes| && outcomes[i].Captured? && outcomes[i].symbol == symbol {
        var i :| 0 <= i < |outcomes| && outcomes[i].Captured? && outcomes[i].symbol == symbol;
        if i < n {
          assert prefix[i] == outcomes[i];
        }
      }
      if exists i :: 0 <= i < n && prefix[i].Captured? && prefix[i].symbol == symbol {
        var i :| 0 <= i < n && prefix[i].Captured? && prefix[i].symbol == symbol;
        assert outcomes[i] == prefix[i];
      }
    }
  }

  // ---------------------------------------------------------------------------
  // The browser session around the captures
  // ---------------------------------------------------------------------------

  /** What the world outside the program does: the environment variables, the
      browser start-up and shut-down, each symbol's `capture`, the files on disk, the model's
      API and the JSON decoder, the template and the clock, the markup
      renderers and the SMTP exchange. */
  datatype World = World(
    env: map<string, string>,
    playwrightFails: Option<Exc>,
    launchFails: Option<Exc>,
    closeFails: Option<Exc>,
    stopFails: Option<Exc>,
    capture: string -> Attempt<Artifacts>,
    onDisk: string -> bool,
    api: Api,
    decode: Decoder,
    template: string,
    today: string,
    stamp: string,
    runAt: string,
    renderTable: seq<SummaryRow> -> string,
    renderSection: TickerSection -> string,
    smtp: Report -> Option<Exc>)

  /** The exception of `__aenter__`, if it raises. */
  function StartError(w: World): Option<Exc> {
    if w.playwrightFails.Some? then w.playwrightFails else w.launchFails
  }

  /** The exception of `__aexit__` after a successful start: the browser's
      `close`, or else Playwright's `stop`. */
  function TeardownError(w: World): Option<Exc> {
    if w.closeFails.Some? then w.closeFails else w.stopFails
  }

  /** The exception that ends the capture phase: the start-up's; else the
      KeyboardInterrupt that escaped `gather`; else the teardown's. A
      KeyboardInterrupt raised in a capture task leaves the event loop itself,
      so `asyncio.run` cancels the main task and runs `__aexit__` under that
      cancellation, where an exception of the teardown is only logged; the
      interrupt is what reaches `main`. After a block that returned, the
      teardown's exception propagates from the `async with`. */
  function CaptureError(tickers: seq<Ticker>, w: World): (e: Option<Exc>)
    ensures StartError(w).Some? ==> e == StartError(w)
    ensures e.None? <==> StartError(w).None? && TeardownError(w).None? && Gathered(tickers, w.capture).Returned?
    ensures StartError(w).None? && Gathered(tickers, w.capture).Raised? ==>
      e == Some(Gathered(tickers, w.capture).error) && !IsException(e.value.cls)
    ensures e.Some? && !IsException(e.value.cls) ==>
      StartError(w) == e || TeardownError(w) == e || Gathered(tickers, w.capture) == Raised(e.value)
  {
    if StartError(w).Some? then StartError(w)
    else if Gathered(tickers, w.capture).Raised? then Some(Gathered(tickers, w.capture).error)
    else if TeardownError(w).Some? then TeardownError(w)
    else None
  }

  /** An Exception raised by one ticker's `capture` never ends the capture
      phase: it ends only on a start-up or teardown failure or on a
      KeyboardInterrupt escaping `gather`. */
  lemma {:induction false} CaptureExceptionsAreContained(tickers: seq<Ticker>, w: World)
    requires StartError(w).None? && TeardownError(w).None?
    requires forall i :: 0 <= i < |tickers| && tickers[i].symbol.Some? ==>
      var a := w.capture(tickers[i].symbol.value); a.Raised? ==> IsException(a.error.cls)
    ensures CaptureError(tickers, w).None?
  {
    GatheredOutcomes(tickers, w.capture);
  }

  /** The body of the `async with`: the capture tasks under `gather`, then the
      loop that sorts their outcomes, unless an exception escapes `gather`. */
  method CaptureBlock(tickers: seq<Ticker>, capture: string -> Attempt<Artifacts>)
    returns (raised: Option<Exc>, screenshots: Dict<Artifacts>, errors: seq<(string, Exc)>)
    ensures raised.None? <==> Gathered(tickers, capture).Returned?
    ensures raised.Some? ==> raised.value == Gathered(tickers, capture).error && !IsException(raised.value.cls)
    ensures raised.None? ==> screenshots == Stored(Gathered(tickers, capture).value)
    ensures raised.None? ==> errors == Errors(Gathered(tickers, capture).value)
  {
    screenshots, errors := [], [];
    var gathered := GatherCaptures(tickers, capture);
    if gathered.Returned? {
      screenshots, errors := Aggregate(gathered.value);
      raised := None;
    } else {
      GatheredOutcomes(tickers, capture);
      raised := Some(gathered.error);
    }
  }

  /** `async with AsyncBrowserManager(config) as browser:` around the capture
      tasks and the aggregation loop. The browser is closed and Playwright
      stopped after the block, also when a KeyboardInterrupt escapes `gather`;
      an exception from that teardown replaces a block that returned, while an
      interrupt from the block wins over it (see `CaptureError`). */
  method CapturePhase(tickers: seq<Ticker>, browserConfig: BrowserConfig, w: World)
    returns (raised: Option<Exc>, screenshots: Dict<Artifacts>, errors: seq<(string, Exc)>, events: seq<BrowserEvent>)
    ensures raised == CaptureError(tickers, w)
    ensures w.playwrightFails.Some? ==> events == []
    ensures w.playwrightFails.None? && w.launchFails.Some? ==> events == [PlaywrightStarted(0)]
    ensures StartError(w).None? ==>
      var headless := if browserConfig.headless.Some? then browserConfig.headless.value else true;
      events == [PlaywrightStarted(0), BrowserLaunched(1, headless)]
        + (if w.closeFails.None? then [BrowserClosed(1)] else [])
        + (if w.closeFails.None? && w.stopFails.None? then [PlaywrightStopped(0)] else [])
    ensures raised.None? ==> screenshots == Stored(Gathered(tickers, w.capture).value)
    ensures raised.None? ==> errors == Errors(Gathered(tickers, w.capture).value)
  {
    screenshots, errors := [], [];
    var manager := new AsyncBrowserManager(browserConfig);
    raised := manager.Enter(w.playwrightFails, w.launchFails);
    if raised.Some? {
      events := manager.events;
      return;
    }
    raised, screenshots, errors := CaptureBlock(tickers, w.capture);
    var exitRaised := manager.Exit(w.closeFails, w.stopFails);
    if exitRaised.Some? && raised.None? {
      raised := exitRaised;
    }
    events := manager.events;
  }

  // ---------------------------------------------------------------------------
  // Phase 2: analysis; phase 3: email
  // ---------------------------------------------------------------------------

  /** The variable `ClaudeAnalyzer.__init__` requires. */
  const AnalysisKeyNames: seq<string> := ["ANTHROPIC_API_KEY"]

  /** Phase 2: the successful analyses of the captured symbols when analysis
      is on and something was captured, otherwise none; a KeyboardInterrupt
      during `analyze_batch` propagates. */
  function AnalysisOf(dryRun: bool, screenshots: Dict<Artifacts>, w: World): (r: Attempt<seq<AnalysisResult>>)
    ensures dryRun || |screenshots| == 0 ==> r == Returned([])
    ensures r.Returned? ==> |r.value| <= |screenshots|
    ensures r.Raised? ==> !IsException(r.error.cls)
  {
    if !dryRun && |screenshots| > 0 then BatchResults(screenshots, w.onDisk, w.api, w.decode) else Returned([])
  }

  /** Both Gmail credentials are set. */
  predicate CredentialsSet(env: map<string, string>) {
    IsSet(env, "GMAIL_ADDRESS") && IsSet(env, "GMAIL_APP_PASSWORD")
  }

  /** The sender `EmailSender(config)` builds when the credentials are set. */
  function SenderOf(config: EmailConfig, env: map<string, string>): Sender
    requires CredentialsSet(env)
  {
    Sender(OrElse(config.recipients, []), OrElse(config.subjectPrefix, DefaultSubjectPrefix),
           env["GMAIL_ADDRESS"], env["GMAIL_APP_PASSWORD"])
  }

  /** The report of the run's results, as `send_report` builds it. */
  function RunReport(config: EmailConfig, results: seq<AnalysisResult>, screenshots: Dict<Artifacts>, w: World): Report
    requires CredentialsSet(w.env) && UniqueKeys(screenshots) && Renderable(results)
  {
    ReportOf(SenderOf(config, w.env), results, screenshots, w.onDisk, w.template, w.today, w.stamp, w.renderTable, w.renderSection)
  }

  /** What phase 3 ends with: the exception it propagates, the errors it
      records, and the message handed to SMTP. The email is attempted only when
      it is asked for, analysis ran, and there are results; missing
      credentials propagate; with no recipients nothing is sent; a result whose
      signal or confidence is not a string makes rendering raise an
      AttributeError on `.upper()`, which is recorded; what SMTP raises is recorded when it is an Exception
      and propagates otherwise. */
  function EmailOutcome(sendEmail: bool, dryRun: bool, results: seq<AnalysisResult>, screenshots: Dict<Artifacts>,
                        config: EmailConfig, w: World): (o: (Option<Exc>, seq<(string, Exc)>, Option<Report>))
    requires UniqueKeys(screenshots)
    ensures |o.1| <= 1 && forall k :: 0 <= k < |o.1| ==> o.1[k].0 == "email" && IsException(o.1[k].1.cls)
    ensures o.1 != [] ==> o.0 == None
    ensures o.0.Some? ==>
      o.0 == Some(Exc(EnvironmentError, MissingMessage(MissingOf(w.env, CredentialNames))))
      || (o.2.Some? && o.0 == w.smtp(o.2.value) && !IsException(o.0.value.cls))
    ensures o.2.Some? ==>
      sendEmail && !dryRun && |results| > 0 && CredentialsSet(w.env) && Renderable(results)
      && o.2.value == RunReport(config, results, screenshots, w)
  {
    if !(sendEmail && !dryRun && |results| > 0) then (None, [], None)
    else if !CredentialsSet(w.env) then (Some(Exc(EnvironmentError, MissingMessage(MissingOf(w.env, CredentialNames)))), [], None)
    else if |OrElse(config.recipients, [])| == 0 then (None, [], None)
    else if !Renderable(results) then (None, [("email", NoUpper)], None)
    else
      var report := RunReport(config, results, screenshots, w);
      match w.smtp(report)
      case None => (None, [], Some(report))
      case Some(e) => if IsException(e.cls) then (None, [("email", e)], Some(report)) else (Some(e), [], Some(report))
  }

  /** Phase 3. The email is attempted only when it is asked for, analysis ran,
      and there are results. Building the sender is outside the `try`, so
      missing credentials propagate; an Exception from `send_report` is
      recorded as an "email" error instead, and anything else propagates.
      `emailed` is the message handed to SMTP, if any. */
  method EmailPhase(sendEmail: bool, dryRun: bool, results: seq<AnalysisResult>, screenshots: Dict<Artifacts>,
                    config: EmailConfig, w: World)
    returns (raised: Option<Exc>, emailErrors: seq<(string, Exc)>, emailed: Option<Report>)
    requires UniqueKeys(screenshots)
    ensures (raised, emailErrors, emailed) == EmailOutcome(sendEmail, dryRun, results, screenshots, config, w)
    ensures !(sendEmail && !dryRun && |results| > 0) ==> raised == None && emailErrors == [] && emailed == None
    ensures sendEmail && !dryRun && |results| > 0 && !CredentialsSet(w.env) ==>
      raised == Some(Exc(EnvironmentError, MissingMessage(MissingOf(w.env, CredentialNames)))) && emailErrors == [] && emailed == None
    ensures sendEmail && !dryRun && |results| > 0 && CredentialsSet(w.env) ==>
      emailed == (if |OrElse(config.recipients, [])| > 0 && Renderable(results)
                  then Some(RunReport(config, results, screenshots, w)) else None)
    ensures sendEmail && !dryRun && |results| > 0 && CredentialsSet(w.env) && |OrElse(config.recipients, [])| > 0 && !Renderable(results) ==>
      raised == None && emailErrors == [("email", NoUpper)]
    ensures emailed.Some? && w.smtp(emailed.value).None? ==> raised == None && emailErrors == []
    ensures emailed.Some? && w.smtp(emailed.value).Some? ==>
      var e := w.smtp(emailed.value).value;
      if IsException(e.cls) then raised == None && emailErrors == [("email", e)]
      else raised == Some(e) && emailErrors == []
    ensures |emailErrors| <= 1 && forall k :: 0 <= k < |emailErrors| ==> emailErrors[k].0 == "email"
    ensures emailErrors != [] ==> raised == None
  {
    raised, emailErrors, emailed := None, [], None;
    if !(sendEmail && !dryRun && |results| > 0) {
      return;
    }
    var sender := NewSender(config, w.env);
    if sender.Raised? {
      raised := Some(sender.error);
      return;
    }
    assert sender.value == SenderOf(config, w.env);
    var message, sendRaised := SendReport(sender.value, results, screenshots, w.onDisk, w.template, w.today, w.stamp,
                                          w.renderTable, w.renderSection, w.smtp);
    emailed := message;
    if sendRaised.Some? {
      if IsException(sendRaised.value.cls) {
        emailErrors := [("email", sendRaised.value)];
      } else {
        raised := sendRaised;
      }
    }
  }

  // ---------------------------------------------------------------------------
  // Phase 4: the results document
  // ---------------------------------------------------------------------------

  /** The twelve keys of an entry of `results.json`: every field of the
      record but `raw_response`. */
  const EntryKeys: set<string> := {
    "symbol", "analysis_date", "primary_trend", "secondary_trend", "patterns_identified", "support_levels",
    "resistance_levels", "volume_assessment", "rsi", "recommendation", "key_observations", "summary"}

  function Numbers(xs: seq<real>): Json {
    JArray(seq(|xs|, i requires 0 <= i < |xs| => JNum(xs[i])))
  }

  function Strings(xs: seq<string>): Json {
    JArray(seq(|xs|, i requires 0 <= i < |xs| => JStr(xs[i])))
  }

  function Objects(xs: seq<map<string, Json>>): Json {
    JArray(seq(|xs|, i requires 0 <= i < |xs| => JObject(xs[i])))
  }

  /** One entry of the "results" list. */
  function EntryOf(r: AnalysisResult): (j: Json)
    ensures j.JObject? && j.fields.Keys == EntryKeys
    ensures "raw_response" !in j.fields
  {
    JObject(map[
      "symbol" := JStr(r.symbol),
      "analysis_date" := JStr(r.analysisDate),
      "primary_trend" := JStr(r.primaryTrend),
      "secondary_trend" := JStr(r.secondaryTrend),
      "patterns_identified" := Objects(r.patternsIdentified),
      "support_levels" := Numbers(r.supportLevels),
      "resistance_levels" := Numbers(r.resistanceLevels),
      "volume_assessment" := JStr(r.volumeAssessment),
      "rsi" := JObject(r.rsi),
      "recommendation" := JObject(r.recommendation),
      "key_observations" := Strings(r.keyObservations),
      "summary" := JStr(r.summary)])
  }

  /** The document written to `results.json`. */
  function ResultsDocument(runAt: string, results: seq<AnalysisResult>): (doc: Json)
    ensures doc.JObject? && doc.fields.Keys == {"run_at", "results"}
    ensures doc.fields["run_at"] == JStr(runAt)
    ensures doc.fields["results"].JArray? && |doc.fields["results"].items| == |results|
    ensures forall i :: 0 <= i < |results| ==> doc.fields["results"].items[i] == EntryOf(results[i])
  {
    JObject(map["run_at" := JStr(runAt), "results" := JArray(seq(|results|, i requires 0 <= i < |results| => EntryOf(results[i])))])
  }

  // Reading an entry back: the inverse of EntryOf.

  function NumbersOf(j: Json): Option<seq<real>> {
    if j.JArray? && forall i :: 0 <= i < |j.items| ==> j.items[i].JNum? then
      Some(seq(|j.items|, i requires 0 <= i < |j.items| => j.items[i].n))
    else None
  }

  function StringsOf(j: Json): Option<seq<string>> {
    if j.JArray? && forall i :: 0 <= i < |j.items| ==> j.items[i].JStr? then
      Some(seq(|j.items|, i requires 0 <= i < |j.items| => j.items[i].s))
    else None
  }

  function ObjectsOf(j: Json): Option<seq<map<string, Json>>> {
    if j.JArray? && forall i :: 0 <= i < |j.items| ==> j.items[i].JObject? then
      Some(seq(|j.items|, i requires 0 <= i < |j.items| => j.items[i].fields))
    else None
  }

  function StrOf(j: Json): Option<string> {
    if j.JStr? then Some(j.s) else None
  }

  function ObjOf(j: Json): Option<map<string, Json>> {
    if j.JObject? then Some(j.fields) else None
  }

  /** The record an entry describes, given the reply text it was parsed from;
      None when the entry does not have the shape EntryOf gives. */
  function ResultOfEntry(entry: Json, rawResponse: string): Option<AnalysisResult> {
    if !entry.JObject? || entry.fields.Keys != EntryKeys then None
    else
      var f := entry.fields;
      var symbol, date, primary, secondary := StrOf(f["symbol"]), StrOf(f["analysis_date"]), StrOf(f["primary_trend"]), StrOf(f["secondary_trend"]);
      var patterns, support, resistance := ObjectsOf(f["patterns_identified"]), NumbersOf(f["support_levels"]), NumbersOf(f["resistance_levels"]);
      var volume, rsi, rec := StrOf(f["volume_assessment"]), ObjOf(f["rsi"]), ObjOf(f["recommendation"]);
      var observations, summary := StringsOf(f["key_observations"]), StrOf(f["summary"]);
      if symbol.None? || date.None? || primary.None? || secondary.None? || patterns.None? || support.None?
         || resistance.None? || volume.None? || rsi.None? || rec.None? || observations.None? || summary.None?
      then None
      else Some(AnalysisResult(symbol.value, date.value, primary.value, secondary.value, patterns.value,
                               support.value, resistance.value, volume.value, rsi.value, rec.value,
                               observations.value, summary.value, rawResponse))
  }

  lemma NumbersRoundTrip(xs: seq<real>)
    ensures NumbersOf(Numbers(xs)) == Some(xs)
  {
    assert NumbersOf(Numbers(xs)).value == xs;
  }

  lemma StringsRoundTrip(xs: seq<string>)
    ensures StringsOf(Strings(xs)) == Some(xs)
  {
    assert StringsOf(Strings(xs)).value == xs;
  }

  lemma ObjectsRoundTrip(xs: seq<map<string, Json>>)
    ensures ObjectsOf(Objects(xs)) == Some(xs)
  {
    assert ObjectsOf(Objects(xs)).value == xs;
  }

  /** An entry keeps every field but the raw reply: reading it back gives the
      record again. */
  lemma EntryRoundTrip(r: AnalysisResult)
    ensures ResultOfEntry(EntryOf(r), r.rawResponse) == Some(r)
  {
    NumbersRoundTrip(r.supportLevels);
    NumbersRoundTrip(r.resistanceLevels);
    StringsRoundTrip(r.keyObservations);
    ObjectsRoundTrip(r.patternsIdentified);
  }

  /** Two records with the same entry differ at most in their raw reply. */
  lemma EntryDropsOnlyRawResponse(r1: AnalysisResult, r2: AnalysisResult)
    requires EntryOf(r1) == EntryOf(r2)
    ensures r1 == r2.(rawResponse := r1.rawResponse)
  {
    EntryRoundTrip(r1);
    EntryRoundTrip(r2.(rawResponse := r1.rawResponse));
  }

  // ---------------------------------------------------------------------------
  // run_analysis_async
  // ---------------------------------------------------------------------------

  /** The parts of the configuration the run reads. */
  datatype Settings = Settings(browser: BrowserConfig, email: EmailConfig)

  /** The capture phase completed: the API key (when needed) is present, the
      browser started and shut down, and no exception escaped `gather`. */
  predicate CaptureCompleted(tickers: seq<Ticker>, dryRun: bool, w: World) {
    (dryRun || IsSet(w.env, "ANTHROPIC_API_KEY")) && CaptureError(tickers, w).None?
  }

  /** The exception `run_analysis_async` propagates, phase by phase: the
      missing API key (checked by `ClaudeAnalyzer(config)` before the browser
      starts), the capture phase's, a KeyboardInterrupt from the analysis,
      and what the email phase lets through. */
  function RunOutcome(tickers: seq<Ticker>, sendEmail: bool, dryRun: bool, settings: Settings, w: World): (e: Option<Exc>)
    ensures !dryRun && !IsSet(w.env, "ANTHROPIC_API_KEY") ==>
      e == Some(Exc(EnvironmentError, MissingMessage(MissingOf(w.env, AnalysisKeyNames))))
    ensures e.None? ==>
      CaptureCompleted(tickers, dryRun, w) && AnalysisOf(dryRun, Stored(Gathered(tickers, w.capture).value), w).Returned?
  {
    if !dryRun && !IsSet(w.env, "ANTHROPIC_API_KEY") then
      Some(Exc(EnvironmentError, MissingMessage(MissingOf(w.env, AnalysisKeyNames))))
    else if CaptureError(tickers, w).Some? then CaptureError(tickers, w)
    else
      var screenshots := Stored(Gathered(tickers, w.capture).value);
      match AnalysisOf(dryRun, screenshots, w)
      case Raised(e) => Some(e)
      case Returned(results) => EmailOutcome(sendEmail, dryRun, results, screenshots, settings.email, w).0
  }

  /** `run_analysis_async`. `raised` is the exception the run propagates, if
      any; `results` and `screenshots` are what it returns; `errors` is the
      list it logs; `emailed` the message handed to SMTP and `written` the
      document written to `results.json`, if any. */
  method RunAnalysis(tickers: seq<Ticker>, sendEmail: bool, dryRun: bool, settings: Settings, w: World)
    returns (raised: Option<Exc>, results: seq<AnalysisResult>, screenshots: Dict<Artifacts>,
             errors: seq<(string, Exc)>, emailed: Option<Report>, written: Option<Json>)
    ensures !dryRun && !IsSet(w.env, "ANTHROPIC_API_KEY") ==>
      raised == Some(Exc(EnvironmentError, MissingMessage(MissingOf(w.env, AnalysisKeyNames)))) && emailed == None && written == None
    ensures (dryRun || IsSet(w.env, "ANTHROPIC_API_KEY")) && CaptureError(tickers, w).Some? ==>
      raised == CaptureError(tickers, w) && emailed == None && written == None
    ensures CaptureCompleted(tickers, dryRun, w) ==>
      var outcomes := Gathered(tickers, w.capture).value;
      screenshots == Stored(outcomes)
      && |Errors(outcomes)| <= |errors| <= |Errors(outcomes)| + 1 && errors[..|Errors(outcomes)|] == Errors(outcomes)
      && (|errors| > |Errors(outcomes)| ==> errors[|errors| - 1].0 == "email" && raised == None)
    ensures CaptureCompleted(tickers, dryRun, w) && AnalysisOf(dryRun, screenshots, w).Raised? ==>
      raised == Some(AnalysisOf(dryRun, screenshots, w).error) && emailed == None && written == None
    ensures CaptureCompleted(tickers, dryRun, w) && AnalysisOf(dryRun, screenshots, w).Returned? ==>
      results == AnalysisOf(dryRun, screenshots, w).value
      && var o := EmailOutcome(sendEmail, dryRun, results, screenshots, settings.email, w);
      raised == o.0 && errors == Errors(Gathered(tickers, w.capture).value) + o.1 && emailed == o.2
    ensures raised == RunOutcome(tickers, sendEmail, dryRun, settings, w)
    ensures (CaptureCompleted(tickers, dryRun, w) && AnalysisOf(dryRun, screenshots, w).Returned?
             && !(sendEmail && !dryRun && |results| > 0)) ==>
      raised == None && errors == Errors(Gathered(tickers, w.capture).value) && emailed == None
    ensures emailed.Some? ==>
      CaptureCompleted(tickers, dryRun, w) && sendEmail && !dryRun && |results| > 0
      && CredentialsSet(w.env) && UniqueKeys(screenshots) && Renderable(results)
      && emailed.value == RunReport(settings.email, results, screenshots, w)
    ensures raised.None? ==> CaptureCompleted(tickers, dryRun, w) && AnalysisOf(dryRun, screenshots, w).Returned?
    ensures raised.None? ==> (written.Some? <==> |results| > 0)
    ensures written.Some? ==> raised == None && written.value == ResultsDocument(w.runAt, results)
  {
    results, screenshots, errors, emailed, written := [], [], [], None, None;
    if !dryRun {
      var key := EnsureEnvVars(w.env, AnalysisKeyNames);
      assert AnalysisKeyNames[0] == "ANTHROPIC_API_KEY";
      if key.Raised? {
        return Some(key.error), results, screenshots, errors, emailed, written;
      }
    }
    var captureRaised, stored, captureErrors, events := CapturePhase(tickers, settings.browser, w);
    if captureRaised.Some? {
      return captureRaised, results, screenshots, errors, emailed, written;
    }
    screenshots := stored;
    var analysis := AnalysisPhase(dryRun, screenshots, w);
    raised, results, errors, emailed, written := AfterAnalysis(analysis, sendEmail, dryRun, screenshots, captureErrors, settings.email, w);
  }

  /** Phase 2: `analyze_batch` on the captured symbols unless this is a dry
      run or nothing was captured. */
  method AnalysisPhase(dryRun: bool, screenshots: Dict<Artifacts>, w: World) returns (r: Attempt<seq<AnalysisResult>>)
    ensures r == AnalysisOf(dryRun, screenshots, w)
  {
    r := Returned([]);
    if !dryRun && |screenshots| > 0 {
      r := AnalyzeBatch(screenshots, w.onDisk, w.api, w.decode);
    }
  }

  /** The run after phase 2: a KeyboardInterrupt from the analysis ends it;
      otherwise phase 3, then `results.json`. `errors` extends the capture
      errors by at most the email error. */
  method AfterAnalysis(analysis: Attempt<seq<AnalysisResult>>, sendEmail: bool, dryRun: bool, screenshots: Dict<Artifacts>,
                       captureErrors: seq<(string, Exc)>, config: EmailConfig, w: World)
    returns (raised: Option<Exc>, results: seq<AnalysisResult>, errors: seq<(string, Exc)>,
             emailed: Option<Report>, written: Option<Json>)
    requires UniqueKeys(screenshots)
    ensures analysis.Raised? ==>
      raised == Some(analysis.error) && results == [] && errors == captureErrors && emailed == None && written == None
    ensures analysis.Returned? ==> results == analysis.value
    ensures analysis.Returned? ==>
      var o := EmailOutcome(sendEmail, dryRun, analysis.value, screenshots, config, w);
      raised == o.0 && errors == captureErrors + o.1 && emailed == o.2
    ensures |captureErrors| <= |errors| <= |captureErrors| + 1 && errors[..|captureErrors|] == captureErrors
    ensures |errors| > |captureErrors| ==> errors[|errors| - 1].0 == "email" && raised == None
    ensures analysis.Returned? && !(sendEmail && !dryRun && |results| > 0) ==>
      raised == None && errors == captureErrors && emailed == None
    ensures emailed.Some? ==>
      sendEmail && !dryRun && |results| > 0 && CredentialsSet(w.env) && Renderable(results)
      && emailed.value == RunReport(config, results, screenshots, w)
    ensures raised.None? ==> analysis.Returned? && (written.Some? <==> |results| > 0)
    ensures written.Some? ==> raised == None && written.value == ResultsDocument(w.runAt, results)
  {
    results, errors, emailed, written := [], captureErrors, None, None;
    if analysis.Raised? {
      assert errors[..|captureErrors|] == captureErrors;
      return Some(analysis.error), results, errors, emailed, written;
    }
    results := analysis.value;
    raised, errors, emailed, written := ReportPhase(sendEmail, dryRun, results, screenshots, captureErrors, config, w);
  }

  /** Phase 3 on the analysis results, then `results.json` when the run
      produced results and nothing was raised. */
  method ReportPhase(sendEmail: bool, dryRun: bool, results: seq<AnalysisResult>, screenshots: Dict<Artifacts>,
                     captureErrors: seq<(string, Exc)>, config: EmailConfig, w: World)
    returns (raised: Option<Exc>, errors: seq<(string, Exc)>, emailed: Option<Report>, written: Option<Json>)
    requires UniqueKeys(screenshots)
    ensures var o := EmailOutcome(sendEmail, dryRun, results, screenshots, config, w);
      raised == o.0 && errors == captureErrors + o.1 && emailed == o.2
    ensures written == if raised.None? && |results| > 0 then Some(ResultsDocument(w.runAt, results)) else None
    ensures |captureErrors| <= |errors| <= |captureErrors| + 1 && errors[..|captureErrors|] == captureErrors
    ensures |errors| > |captureErrors| ==> errors[|errors| - 1].0 == "email" && raised == None
    ensures !(sendEmail && !dryRun && |results| > 0) ==> raised == None && errors == captureErrors && emailed == None
    ensures emailed.Some? ==>
      sendEmail && !dryRun && |results| > 0 && CredentialsSet(w.env) && Renderable(results)
      && emailed.value == RunReport(config, results, screenshots, w)
    ensures raised.None? ==> (written.Some? <==> |results| > 0)
    ensures written.Some? ==> raised == None && written.value == ResultsDocument(w.runAt, results)
  {
    written := None;
    var emailErrors;
    raised, emailErrors, emailed := EmailPhase(sendEmail, dryRun, results, screenshots, config, w);
    assert (captureErrors + emailErrors)[..|captureErrors|] == captureErrors;
    errors := captureErrors + emailErrors;
    if raised.None? && |results| > 0 {
      written := Some(ResultsDocument(w.runAt, results));
    }
  }

  // ---------------------------------------------------------------------------
  // main
  // ---------------------------------------------------------------------------

  /** The command-line options the workflow reads. `tickers` is `-t`/`--ticker`. */
  datatype Args = Args(tickers: Option<seq<string>>, noEmail: bool, dryRun: bool, noHeadless: bool)

  /** The tickers given with `-t`: upper-cased, each named by its symbol. */
  function TickersFromArgs(symbols: seq<string>): (ts: seq<Ticker>)
    ensures |ts| == |symbols|
    ensures forall i :: 0 <= i < |symbols| ==> ts[i].symbol == Some(Upper(symbols[i])) && ts[i].name == ts[i].symbol
  {
    seq(|symbols|, i requires 0 <= i < |symbols| => Ticker(Some(Upper(symbols[i])), Some(Upper(symbols[i]))))
  }

  /** The `-t` tickers when some are given, otherwise the configured ones. */
  function SelectTickers(args: Args, configured: seq<Ticker>): (ts: seq<Ticker>)
    ensures args.tickers.Some? && |args.tickers.value| > 0 ==> ts == TickersFromArgs(args.tickers.value)
    ensures !(args.tickers.Some? && |args.tickers.value| > 0) ==> ts == configured
  {
    if args.tickers.Some? && |args.tickers.value| > 0 then TickersFromArgs(args.tickers.value) else configured
  }

  /** A command-line symbol is already in upper case, so it is unchanged by a
      second upper-casing. */
  lemma ArgTickersAreUpperCase(symbols: seq<string>)
    ensures forall t :: t in TickersFromArgs(symbols) ==>
      t.symbol.Some? && Upper(t.symbol.value) == t.symbol.value && t.name == t.symbol
  {
    forall t | t in TickersFromArgs(symbols)
      ensures t.symbol.Some? && Upper(t.symbol.value) == t.symbol.value && t.name == t.symbol
    {
      var i :| 0 <= i < |symbols| && TickersFromArgs(symbols)[i] == t;
      UpperIdempotent(symbols[i]);
    }
  }

  /** The exit code for how the run ended: 0 when it returned, 130 for a
      KeyboardInterrupt, 1 for any other exception. */
  function ExitCode(raised: Option<Exc>): (code: int)
    ensures code == 0 <==> raised.None?
    ensures code == 130 <==> raised.Some? && raised.value.cls == KeyboardInterrupt
    ensures code == 1 <==> raised.Some? && IsException(raised.value.cls)
  {
    if raised.None? then 0
    else if raised.value.cls == KeyboardInterrupt then 130
    else 1
  }

  /** The settings the run uses: `--no-headless` sets `browser.headless` to
      false and leaves everything else as configured. */
  function RunSettings(args: Args, settings: Settings): (s: Settings)
    ensures s.email == settings.email
    ensures args.noHeadless ==> s.browser.headless == Some(false)
    ensures !args.noHeadless ==> s.browser == settings.browser
  {
    if args.noHeadless then settings.(browser := settings.browser.(headless := Some(false))) else settings
  }

  // ---------------------------------------------------------------------------
  // The console summary `main` prints after the run
  // ---------------------------------------------------------------------------

  /** `rec.get("signal", "N/A")` in the console summary. */
  function SummarySignal(r: AnalysisResult): (j: Json)
    ensures "signal" in r.recommendation ==> j == r.recommendation["signal"]
    ensures "signal" !in r.recommendation ==> j == JStr("N/A")
  {
    Get(r.recommendation, "signal", JStr("N/A"))
  }

  /** What `colors.get(signal, "")` raises. A JSON array is a Python list and
      an object a dict; neither is hashable, so the lookup raises TypeError.
      Every other JSON value is hashable and the lookup yields a color. */
  function ColorLookupError(signal: Json): (e: Option<Exc>)
    ensures e.Some? <==> signal.JArray? || signal.JObject?
    ensures e.Some? ==> e.value.cls == TypeError
  {
    match signal
    case JArray(_) => Some(Exc(TypeError, "unhashable type: 'list'"))
    case JObject(_) => Some(Exc(TypeError, "unhashable type: 'dict'"))
    case _ => None
  }

  /** The signal of `r` cannot be looked up in the color table. */
  predicate Unhashable(r: AnalysisResult) {
    SummarySignal(r).JArray? || SummarySignal(r).JObject?
  }

  /** The console summary's outcome: the TypeError of the first result whose
      signal is unhashable, or nothing when every lookup succeeds. */
  function SummaryError(results: seq<AnalysisResult>): (e: Option<Exc>)
    ensures e.None? <==> forall i :: 0 <= i < |results| ==> !Unhashable(results[i])
    ensures e.Some? ==>
      exists i :: 0 <= i < |results| && Unhashable(results[i]) && e == ColorLookupError(SummarySignal(results[i]))
        && (forall k :: 0 <= k < i ==> !Unhashable(results[k]))
  {
    if |results| == 0 then None
    else if Unhashable(results[0]) then ColorLookupError(SummarySignal(results[0]))
    else
      assert forall k :: 0 <= k < |results| - 1 ==> results[1..][k] == results[k + 1];
      SummaryError(results[1..])
  }

  /** The loop of `main` that prints each result's symbol, colored signal,
      confidence, trend and summary; only the color lookup can raise, and it
      ends the loop. */
  method PrintSummary(results: seq<AnalysisResult>) returns (raised: Option<Exc>)
    ensures raised == SummaryError(results)
  {
    for i := 0 to |results|
      invariant SummaryError(results[i..]) == SummaryError(results)
    {
      assert results[i..][0] == results[i] && results[i..][1..] == results[i + 1..];
      var color := ColorLookupError(SummarySignal(results[i]));
      if color.Some? {
        return color;
      }
    }
    assert results[|results|..] == [];
    raised := None;
  }

  /** The exception that ends `main` once the run has started: the run's own,
      or else the console summary's TypeError on the results the run
      returned. Both are inside the same `try`. */
  function MainOutcome(tickers: seq<Ticker>, sendEmail: bool, dryRun: bool, settings: Settings, w: World): (e: Option<Exc>)
    ensures RunOutcome(tickers, sendEmail, dryRun, settings, w).Some? ==> e == RunOutcome(tickers, sendEmail, dryRun, settings, w)
    ensures e.Some? && RunOutcome(tickers, sendEmail, dryRun, settings, w).None? ==> e.value.cls == TypeError
  {
    match RunOutcome(tickers, sendEmail, dryRun, settings, w)
    case Some(x) => Some(x)
    case None => SummaryError(AnalysisOf(dryRun, Stored(Gathered(tickers, w.capture).value), w).value)
  }

  /** A run exits with status 0 exactly when every phase gets through: the API
      key is there when needed, the browser starts and shuts down, no
      KeyboardInterrupt escapes the captures or the analysis, the email phase
      propagates nothing, and every result's signal can be looked up in the
      summary's color table. */
  lemma RunExitsZeroIff(tickers: seq<Ticker>, sendEmail: bool, dryRun: bool, settings: Settings, w: World)
    ensures ExitCode(MainOutcome(tickers, sendEmail, dryRun, settings, w)) == 0 <==>
      CaptureCompleted(tickers, dryRun, w)
      && var screenshots := Stored(Gathered(tickers, w.capture).value);
      AnalysisOf(dryRun, screenshots, w).Returned?
      && var results := AnalysisOf(dryRun, screenshots, w).value;
      EmailOutcome(sendEmail, dryRun, results, screenshots, settings.email, w).0.None?
      && forall i :: 0 <= i < |results| ==> !Unhashable(results[i])
  {
  }

  /** Once the browser has started, a KeyboardInterrupt that escapes `gather`
      ends the process with status 130 whatever the teardown does; one that
      escapes `analyze_batch`, after a clean teardown, does too. */
  lemma InterruptedRunExits130(tickers: seq<Ticker>, sendEmail: bool, dryRun: bool, settings: Settings, w: World)
    requires dryRun || IsSet(w.env, "ANTHROPIC_API_KEY")
    requires StartError(w).None?
    requires Gathered(tickers, w.capture).Raised?
      || (TeardownError(w).None? && AnalysisOf(dryRun, Stored(Gathered(tickers, w.capture).value), w).Raised?)
    ensures ExitCode(MainOutcome(tickers, sendEmail, dryRun, settings, w)) == 130
  {
  }

  /** Exit code 1 comes from an Exception only: the missing API key, a
      start-up or teardown failure of the browser, missing Gmail credentials,
      or the summary's TypeError; never from one ticker's capture, whose
      Exception is recorded instead. */
  lemma FailedRunExits1(tickers: seq<Ticker>, sendEmail: bool, dryRun: bool, settings: Settings, w: World)
    ensures !dryRun && !IsSet(w.env, "ANTHROPIC_API_KEY") ==> ExitCode(MainOutcome(tickers, sendEmail, dryRun, settings, w)) == 1
    ensures ExitCode(MainOutcome(tickers, sendEmail, dryRun, settings, w)) == 1 ==>
      var e := MainOutcome(tickers, sendEmail, dryRun, settings, w).value;
      e == Exc(EnvironmentError, MissingMessage(MissingOf(w.env, AnalysisKeyNames)))
      || Some(e) == StartError(w) || Some(e) == TeardownError(w)
      || e == Exc(EnvironmentError, MissingMessage(MissingOf(w.env, CredentialNames)))
      || e.cls == TypeError
  {
    if (dryRun || IsSet(w.env, "ANTHROPIC_API_KEY")) && CaptureError(tickers, w).None? {
      var screenshots := Stored(Gathered(tickers, w.capture).value);
      var analysis := AnalysisOf(dryRun, screenshots, w);
      if analysis.Returned? {
        var o := EmailOutcome(sendEmail, dryRun, analysis.value, screenshots, settings.email, w);
        assert RunOutcome(tickers, sendEmail, dryRun, settings, w) == o.0;
      }
    }
  }

  /** An Exception from the browser's start-up, or from its teardown after a
      clean start and a block that returned, ends the process with status 1. */
  lemma BrowserFailureExits1(tickers: seq<Ticker>, sendEmail: bool, dryRun: bool, settings: Settings, w: World)
    requires dryRun || IsSet(w.env, "ANTHROPIC_API_KEY")
    requires StartError(w).Some? ==> IsException(StartError(w).value.cls)
    requires StartError(w).None? ==>
      TeardownError(w).Some? && IsException(TeardownError(w).value.cls) && Gathered(tickers, w.capture).Returned?
    ensures ExitCode(MainOutcome(tickers, sendEmail, dryRun, settings, w)) == 1
  {
    assert CaptureError(tickers, w) == if StartError(w).Some? then StartError(w) else TeardownError(w);
  }

  /** Missing Gmail credentials end the process with status 1 when the email
      is due: the capture completed, the analysis returned some results, and
      neither `--no-email` nor `--dry-run` was given. */
  lemma MissingCredentialsExit1(tickers: seq<Ticker>, sendEmail: bool, dryRun: bool, settings: Settings, w: World)
    requires CaptureCompleted(tickers, dryRun, w) && sendEmail && !dryRun && !CredentialsSet(w.env)
    requires AnalysisOf(dryRun, Stored(Gathered(tickers, w.capture).value), w).Returned?
    requires |AnalysisOf(dryRun, Stored(Gathered(tickers, w.capture).value), w).value| > 0
    ensures ExitCode(MainOutcome(tickers, sendEmail, dryRun, settings, w)) == 1
  {
    var screenshots := Stored(Gathered(tickers, w.capture).value);
    var results := AnalysisOf(dryRun, screenshots, w).value;
    assert RunOutcome(tickers, sendEmail, dryRun, settings, w) == EmailOutcome(sendEmail, dryRun, results, screenshots, settings.email, w).0;
  }

  /** A run that returns results, one of them with a list or dict as its
      signal, still ends with status 1: the summary's color lookup raises
      TypeError inside `main`'s `try`, after the email and `results.json`. */
  lemma SummaryTypeErrorExits1(tickers: seq<Ticker>, sendEmail: bool, dryRun: bool, settings: Settings, w: World, i: nat)
    requires RunOutcome(tickers, sendEmail, dryRun, settings, w).None?
    requires i < |AnalysisOf(dryRun, Stored(Gathered(tickers, w.capture).value), w).value|
    requires Unhashable(AnalysisOf(dryRun, Stored(Gathered(tickers, w.capture).value), w).value[i])
    ensures ExitCode(MainOutcome(tickers, sendEmail, dryRun, settings, w)) == 1
  {
  }

  /** Every ticker has a symbol. The log line before the run joins
      `t['symbol']` of every ticker, outside the `try`. */
  predicate AllNamed(tickers: seq<Ticker>) {
    forall i :: 0 <= i < |tickers| ==> tickers[i].symbol.Some?
  }

  /** `main`: `--no-headless` forces a visible browser; with no tickers it
      returns 1 without running; a ticker without a symbol raises KeyError
      before the run, uncaught, so the process ends with status 1; otherwise it
      runs the workflow and maps the outcome to the exit code. `raised` is
      the exception that ends `main` or the run. */
  method RunMain(args: Args, settings: Settings, configured: seq<Ticker>, w: World)
    returns (code: int, tickers: seq<Ticker>, ran: bool, raised: Option<Exc>)
    ensures tickers == SelectTickers(args, configured)
    ensures ran <==> |tickers| > 0 && AllNamed(tickers)
    ensures |tickers| == 0 ==> code == 1 && raised == None
    ensures |tickers| > 0 && !AllNamed(tickers) ==> code == 1 && raised == Some(MissingSymbol)
    ensures ran ==> code == ExitCode(raised)
    ensures ran ==> raised == MainOutcome(tickers, !args.noEmail, args.dryRun, RunSettings(args, settings), w)
    ensures ran && !args.dryRun && !IsSet(w.env, "ANTHROPIC_API_KEY") ==> code == 1
    ensures ran && (args.dryRun || IsSet(w.env, "ANTHROPIC_API_KEY")) && StartError(w).Some? ==> code == ExitCode(StartError(w))
  {
    tickers := SelectTickers(args, configured);
    if |tickers| == 0 {
      return 1, tickers, false, None;
    }
    if !AllNamed(tickers) {
      return 1, tickers, false, Some(MissingSymbol);
    }
    var results, screenshots, errors, emailed, written;
    raised, results, screenshots, errors, emailed, written :=
      RunAnalysis(tickers, !args.noEmail, args.dryRun, RunSettings(args, settings), w);
    ran := true;
    if raised.None? {
      raised := PrintSummary(results);
    }
    code := ExitCode(raised);
  }
}
