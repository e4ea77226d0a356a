# stockcharts: a Dafny model of the capture, analysis and report pipeline

`stockcharts` is a daily workflow with four phases:

1. It opens a Playwright browser and captures four chart images per ticker from StockCharts.com: daily and weekly candlesticks, plus daily and weekly Point & Figure.
2. It sends each symbol's images to a vision model and parses the JSON reply into an analysis record.
3. It emails an HTML report with the charts embedded inline.
4. It writes `results.json`.

This project models the decision logic around those external calls and proves what it promises:
- the retry decorators with exponential backoff and the environment-variable check;
- the greedy `{...}` extraction and field defaults of the reply parser, with its neutral fallback;
- the fixed order of the analysis request;
- the order-preserving filter of the analysis batch;
- the file names, merge and "first visible selector wins" loops of the chart capture;
- the quote escaping and URL fix-up;
- the colour tables, early exits, Content-IDs, attachment selection and placeholder substitution of the mailer;
- the browser manager's life cycle;
- the phase gates, error aggregation, JSON shape and exit codes of `main.py`.

Every external call is a parameter: a function from its inputs to what it returns or raises. That covers Playwright, the model's API, `json.loads`, the file system, SMTP, the clock and the environment. The project is modelled module by module:

| file | module | source |
|---|---|---|
| `common.dfy` | `Common` | shared values: `Option`, exceptions, `Attempt` (return or raise), JSON values, insertion-ordered dicts |
| `text.dfy` | `Text` | the `str` operations used: `upper`, `replace`, `startswith`, `join` |
| `utils.dfy` | `Utils` | `src/utils.py` |
| `browser.dfy` | `Browser` | `src/browser.py` |
| `chart_capture.dfy` | `ChartCapture` | `src/chart_capture.py` |
| `claude_analysis.dfy` | `ClaudeAnalysis` | `src/claude_analysis.py` |
| `email_sender.dfy` | `EmailSender` | `src/email_sender.py` |
| `pipeline.dfy` | `Pipeline` | `src/main.py` |

Loops stay loops. Each method is proved equal to a specification function, and the properties are proved about that function. `AsyncBrowserManager` is a class whose fields are `_playwright` and `_browser` plus the list of what it did to Playwright.

Three behaviours of the source worth noting:
- `results.json` is written only when there are results. It is not written for a run with none (`src/main.py:170`); see `Pipeline.RunAnalysis`.
- A symbol whose capture returned an empty dict is stored in `screenshots` and still sent to analysis (`src/main.py:144`, `src/main.py:148-150`); see `Pipeline.LastCaptureWins` and `Pipeline.AnalysisOf`.
- `capture` swallows every Exception of its two sub-captures; only a KeyboardInterrupt escapes it. The `async_retry` around it therefore never retries, and a failing ticker ends up with an empty or partial dict rather than an error entry (`src/chart_capture.py:507-544`); see `ChartCapture.Capture` and `ChartCapture.CaptureRunsOnce`.

## Model

| member | source | states |
|---|---|---|
| Common.OrElse | src/claude_analysis.py:181-192 | `data.get(key, default)`: the value when present, the default otherwise |
| Common.Get | src/email_sender.py:46 | `dict.get(key, default)` gives the entry when the key is present, the default otherwise |
| Common.IndexOfKey | src/email_sender.py:299-300 | finds the position of a key in an insertion-ordered dict, or reports that no entry has it |
| Common.Lookup | src/email_sender.py:299-300 | `screenshots[symbol]` is found exactly when the symbol is a key, and yields that key's value |
| Common.Put | src/main.py:144 | `screenshots[symbol] = paths`: keys stay unique; an existing key keeps its position and takes the new value; a new key goes last; every other key keeps its value |
| Common.FirstInterrupt | src/main.py:131-134 | the first task whose outcome is not an `Exception`, if any |
| Common.FirstInterruptIsFirst | src/main.py:131-134 | no task is found exactly when no outcome interrupts, and no task before the one found interrupts |
| Common.GatherOutcome | src/claude_analysis.py:345 | `gather(..., return_exceptions=True)` returns every outcome, in task order, exactly when none is a KeyboardInterrupt; otherwise it raises the first one |
| Common.NoInterruptAppend | src/claude_analysis.py:345 | a task that does not interrupt keeps a gather without interrupts going |
| Common.InterruptInPrefix | src/claude_analysis.py:345 | once an interrupt is among the first tasks, later tasks do not change what the gather raises |
| Common.MapSeq | src/email_sender.py:285-296 | a list built by appending one image per element has the length of its input |
| Common.MapSeqAt | src/email_sender.py:285-296 | element i of that list is the image of input element i |
| Text.Upper | src/email_sender.py:46 | `str.upper` keeps the length and maps each character on its own |
| Text.UpperIdempotent | src/main.py:236 | upper-casing an upper-cased string changes nothing |
| Text.MatchShift | src/email_sender.py:339-341 | an occurrence in the tail of a string is one index later in the string |
| Text.ReplaceAll | src/email_sender.py:339-341 | a string shorter than the pattern is returned unchanged; its lemmas below state the scan (`ReplaceAbsent`, `ReplaceSkip`, `ReplaceAtStart`, `ReplaceAfterPrefix`, `SingleOccurrence`, `ReplaceCharIsMapChar`) |
| Text.ReplaceAllChars | src/email_sender.py:339-341 | `replace` introduces no character beyond those of the string and of the replacement |
| Text.ReplaceAbsent | src/email_sender.py:339-341 | `str.replace` leaves a string without the pattern unchanged |
| Text.ReplaceSkip | src/email_sender.py:339-341 | where the pattern does not start the string, `replace` copies the first character and goes on |
| Text.ReplaceAfterPrefix | src/email_sender.py:339-341 | a prefix in which no occurrence starts is copied unchanged by `replace` |
| Text.ReplaceAtStart | src/email_sender.py:339-341 | an occurrence at the start is replaced, and the scan continues after it |
| Text.SingleOccurrence | src/email_sender.py:339-341 | a text holding the pattern once becomes the text around it with the replacement in its place |
| Text.AbsentFromBraceFree | src/email_sender.py:339-341 | a `{`-initial placeholder cannot occur in text without braces |
| Text.DiffersAt | src/email_sender.py:339-341 | a pattern that differs at some index does not match there |
| Text.AbsentAroundPlaceholder | src/email_sender.py:339-341 | one `{{...}}` placeholder next to brace-free text does not create an occurrence of another |
| Text.ReplaceAfterBraceFree | src/email_sender.py:339-341 | a placeholder after brace-free text, and absent from the rest, is replaced exactly once |
| Text.MapChar | src/chart_capture.py:87 | replacing one character grows the string by (len(rep) - 1) per occurrence |
| Text.ReplaceCharIsMapChar | src/chart_capture.py:87 | `replace` of a one-character pattern substitutes each occurrence of that character |
| Text.FirstIndex | src/claude_analysis.py:176 | the first `{` of the reply, or none when it has no `{` |
| Text.LastIndex | src/claude_analysis.py:176 | the last `}` of the reply, or none when it has no `}` |
| Utils.Delays | src/utils.py:85-100 | the successive values of `current_delay`: `delay * backoff^j` |
| Utils.FirstStop | src/utils.py:88-91 | the first attempt that returns or raises an unlisted exception, or `max_attempts` when none does |
| Utils.LastAttempt | src/utils.py:88-102 | the last attempt made is below `max_attempts` |
| Utils.FailedRounds | src/utils.py:88-100 | each failed non-final attempt contributes a call, a warning and a sleep: three events per round |
| Utils.FirstStopIs | src/utils.py:88-91 | the loop stops at the first attempt that returns or raises an unlisted exception |
| Utils.NextRound | src/utils.py:93-100 | a failed non-final attempt adds its warning and its sleep, and the next delay is the current one times `backoff` |
| Utils.Retry | src/utils.py:84-102 | the `retry` wrapper's loop does exactly what the loop-free `RetrySpec` says: the same outcome and the same calls, warnings and `time.sleep`s in the same order |
| Utils.AsyncRetry | src/utils.py:127-145 | the same for `async_retry`, with `await asyncio.sleep` |
| Utils.TraceAppend | src/utils.py:88-100 | calls, sleeps and warnings of a concatenated trace are those of its parts |
| Utils.LastRound | src/utils.py:93-100 | round n adds call n-1, warning n and the sleep `Delay(n-1)` |
| Utils.FailedRoundsContent | src/utils.py:93-100 | after n failed rounds: calls 0..n-1; warnings 1..n; sleeps `delay * backoff^0`, ..., `delay * backoff^(n-1)` |
| Utils.RetrySpec | src/utils.py:84-102 | the loop-free description of the wrapper that `Retry` computes: the outcome is the last attempt's, and the trace holds one call plus three events per failed round, so at most `3*max_attempts - 2` events; `RetryShape` states its full shape and `RetryTotalWait` the time slept |
| Utils.RetryShape | src/utils.py:84-102 | attempts run from 0 to the last; there are never more than `max_attempts`; every earlier attempt raised a listed exception; the outcome is the last attempt's; the k-th sleep lasts `delay*backoff^k` and follows warning k+1; no sleep follows the final attempt |
| Utils.RetryReturnsFirstSuccess | src/utils.py:88-90 | the value of the first call that returns is returned, after n+1 calls and n sleeps |
| Utils.RetryUnlistedPropagates | src/utils.py:89-91 | an exception not in `exceptions` propagates from the attempt that raised it; no later call, warning or sleep happens |
| Utils.RetryExhausted | src/utils.py:91-102 | when every attempt raises a listed exception: `max_attempts` calls; `max_attempts-1` growing sleeps; warnings 1..max_attempts-1; the last exception re-raised unchanged |
| Utils.SumOfDelays | src/utils.py:85-100 | the first n delays add up to `delay * (1 + backoff + ... + backoff^(n-1))` |
| Utils.RetryTotalWait | src/utils.py:93-100 | the total time slept is that geometric sum over the sleeps made; when all attempts fail that is `max_attempts - 1` terms |
| Utils.AsyncRetryAgreesWithRetry | src/utils.py:127-145 | `async_retry` and `retry` give the same outcome, calls, warnings and sleep durations |
| Utils.MissingOf | src/utils.py:172-178 | the `missing` list holds exactly the requested names that are unset or empty |
| Utils.MissingEmptyIffAllSet | src/utils.py:175-182 | nothing is missing exactly when every requested name is set and non-empty |
| Utils.EnsureEnvVars | src/utils.py:159-188 | raises EnvironmentError, naming the missing names in order, exactly when some name is unset or empty; otherwise the returned dict has exactly the requested names, each with its environment value |
| Utils.AllNamesKept | src/utils.py:175-188 | when every name is set, the dict of set names holds every requested name |
| Browser.AsyncBrowserManager.constructor | src/browser.py:22-28 | defaults: headless True, timeout 30000, viewport 1920x1080; nothing started |
| Browser.AsyncBrowserManager.Start | src/browser.py:30-37 | Playwright starts, then the browser launches with the configured headless flag; a failure of either step raises and leaves what was not reached untouched |
| Browser.AsyncBrowserManager.Stop | src/browser.py:39-48 | closes the browser if any, then stops Playwright if running, each set to None once its call returns; a raising `close` propagates at once, leaving the browser set and Playwright running; a raising `stop` leaves Playwright set; on a stopped manager nothing happens |
| Browser.AsyncBrowserManager.WithContext | src/browser.py:50-74 | before `start`: RuntimeError "Browser not started. Call start() first.", nothing opened; otherwise the context gets the timeout and viewport and its `close` runs whether the body returns or raises; the body's exception propagates unless the close raises, whose exception replaces it |
| Browser.AsyncBrowserManager.WithPage | src/browser.py:76-89 | the page opens in a fresh context and its close runs before the context's on every exit path; a failing `new_page` still closes the context; an exception from the page close replaces the body's, and one from the context close replaces whatever was propagating |
| Browser.AsyncBrowserManager.Enter | src/browser.py:91-94 | `__aenter__` is `start` |
| Browser.AsyncBrowserManager.Exit | src/browser.py:96-98 | `__aexit__` is `stop`, with the same outcomes when `close` or `stop` raises |
| Browser.UseManager | src/browser.py:91-98 | `async with` on a fresh manager: start, block, then browser closed and Playwright stopped; an exception from that teardown replaces the block's; a failed `__aenter__` skips `__aexit__` |
| ChartCapture.Escaped | src/chart_capture.py:87 | the escaped text is longer than the input by its number of quotes |
| ChartCapture.MapCharAppend | src/chart_capture.py:87 | replacing one character distributes over concatenation |
| ChartCapture.TwoMapsAreEscaped | src/chart_capture.py:87 | the two successive single-character replacements escape per character |
| ChartCapture.EscapeQuotes | src/chart_capture.py:87 | the escaped source holds no character beyond those of the source, the backslash and the two quotes; `EscapeQuotesIsPerCharacter` states the escaping character by character |
| ChartCapture.EscapeQuotesIsPerCharacter | src/chart_capture.py:87 | `'` becomes `\'` and `"` becomes `\"`; other characters are kept; the length grows by the number of quotes |
| ChartCapture.EscapedQuotesArePrefixed | src/chart_capture.py:87 | every `"` of the escaped src follows a backslash |
| ChartCapture.EscapedReadsBack | src/chart_capture.py:87-91 | for a src without backslashes or line breaks the escaped text is one JavaScript string literal whose value is the src itself |
| ChartCapture.EscapedReadsBackPerCharacter | src/chart_capture.py:87-91 | the same for the per-character escaping |
| ChartCapture.BackslashBreaksLiteral | src/chart_capture.py:87 | only quotes are escaped: the src `a\"b` escapes to `a\\"b`, which is not one literal |
| ChartCapture.FixSrc | src/chart_capture.py:376-377 | a src starting with "/" gets "https://stockcharts.com" in front; any other src is unchanged |
| ChartCapture.FixSrcAbsolute | src/chart_capture.py:376-377 | a fixed-up URL never starts with "/", and fixing it again changes nothing |
| ChartCapture.OptionSelectors | src/chart_capture.py:125-130 | four option selectors for the period menu, three for the range menu |
| ChartCapture.FirstClicked | src/chart_capture.py:132-142 | the first selector that is visible and clicked; none only when no selector gets clicked |
| ChartCapture.FindOption | src/chart_capture.py:133-142 | the loop with its `clicked` flag and `break` finds that first selector |
| ChartCapture.SetDropdown | src/chart_capture.py:101-216 | `_set_period`/`_set_range`: nothing without the toggle; when it opens no menu or no option is visible, only the toggle click and no chart-update wait; otherwise the first visible option is clicked, then the wait on the escaped old src (with a 1 s pause when it times out) or a 1 s pause when there was no src |
| ChartCapture.ApplyIndicators | src/chart_capture.py:439-441 | `_add_rsi_indicator` runs once for each indicator whose name upper-cases to "RSI", in configuration order |
| ChartCapture.CandleError | src/chart_capture.py:427-471 | the candlestick capture completes exactly when navigation and the three render waits raise nothing but timeouts |
| ChartCapture.CaptureCandlestick | src/chart_capture.py:412-477 | keys are a subset of {daily, weekly}: a key is present iff its save returned True, with path `{symbol}_{variant}.png`; an uncaught page error propagates |
| ChartCapture.BoxFallback | src/chart_capture.py:389-404 | the container fallback saves only by screenshotting some container |
| ChartCapture.RequestedAreAbsolute | src/chart_capture.py:369-379 | every URL the P&F capture downloads is absolute |
| ChartCapture.CapturePnfChart | src/chart_capture.py:323-410 | returns True exactly when the page loaded and some image selector's download was saved or a container screenshot was; it never raises; the URLs downloaded are those of the selectors tried, in order |
| ChartCapture.TryImages | src/chart_capture.py:369-387 | the image selectors are tried in order until a download is saved |
| ChartCapture.RequestedStep | src/chart_capture.py:369-387 | trying selectors from i on: selector i's request, then, unless it saved, those of the rest |
| ChartCapture.TryContainers | src/chart_capture.py:389-404 | the first visible container is screenshotted; an exception ends the fallback unsaved |
| ChartCapture.CapturePnfCharts | src/chart_capture.py:479-505 | keys are a subset of {pnf_daily, pnf_weekly}: a key is present iff its capture returned True, with path `{symbol}_{variant}.png`; it never raises |
| ChartCapture.Merge | src/chart_capture.py:536-544 | the `merged.update(r)` loop over the sub-results, exceptions dropped |
| ChartCapture.MergeAllKeys | src/chart_capture.py:537-541 | a key is merged iff some dict sub-result has it |
| ChartCapture.MergeAllValues | src/chart_capture.py:537-541 | each merged path is the path of some dict sub-result |
| ChartCapture.MergeOrderIrrelevant | src/chart_capture.py:537-540 | with disjoint key sets the order of the two sub-results does not matter |
| ChartCapture.Capture | src/chart_capture.py:508-544 | a sub-capture failing with an Exception only loses its own keys; a KeyboardInterrupt from either sub-capture escapes `capture`, the candlestick one first; otherwise it holds daily/weekly iff the candlestick page opened, its capture completed and that save succeeded, and pnf_* iff the P&F page opened and that capture succeeded; every key is one of the four variants, with path `{symbol}_{variant}.png` |
| ChartCapture.MergedCapture | src/chart_capture.py:463-503 | the candlestick and P&F key sets are disjoint, so the merge keeps both with their own file names |
| ChartCapture.MergeTwo | src/chart_capture.py:537-540 | merging two sub-results gives the second dict's key precedence |
| ChartCapture.CaptureRunsOnce | src/chart_capture.py:507-508 | since `capture` raises nothing but KeyboardInterrupt, which is not in `(Exception,)`, its `async_retry` calls it exactly once and never sleeps |
| ClaudeAnalysis.Candidate | src/claude_analysis.py:176 | the match of `\{[\s\S]*\}`: from the first `{` to the last `}`, which comes after it |
| ClaudeAnalysis.CandidateExists | src/claude_analysis.py:176-177 | there is a candidate exactly when some `{` is followed by some `}` |
| ClaudeAnalysis.CandidateIsBraced | src/claude_analysis.py:176 | a candidate starts with `{` and ends with `}` |
| ClaudeAnalysis.Truncate | src/claude_analysis.py:211 | the fallback summary is the prefix of length min(500, len(text)) |
| ClaudeAnalysis.ParseResponse | src/claude_analysis.py:164-213 | never raises; `raw_response` is always the text; a decodable candidate gives its fields with the defaults of each absent one; otherwise the given symbol, UNKNOWN trends and volume, empty lists, HOLD/LOW/"Unable to parse analysis" and the truncated summary |
| ClaudeAnalysis.NoBracesFallsBack | src/claude_analysis.py:176-213 | a reply with no `{` before a `}` degrades to the fallback whatever the decoder does |
| ClaudeAnalysis.UsableVariants | src/claude_analysis.py:232-294 | the variants present whose file exists, in order |
| ClaudeAnalysis.BuildContent | src/claude_analysis.py:229-300 | the successive appends build the request of `ContentSpec` |
| ClaudeAnalysis.PairsOfVariants | src/claude_analysis.py:232-294 | the pairs of daily, weekly, pnf_daily and pnf_weekly, in that order |
| ClaudeAnalysis.LaidCons | src/claude_analysis.py:232-294 | one more caption and image pair in front keeps the layout |
| ClaudeAnalysis.PairsLayout | src/claude_analysis.py:232-294 | positions 2j and 2j+1 hold the caption and image of the j-th usable variant |
| ClaudeAnalysis.ContentLayout | src/claude_analysis.py:229-300 | for k usable variants the request has 2k+1 items: the pairs in variant order, and exactly one prompt, last |
| ClaudeAnalysis.OtherKeysIgnored | src/claude_analysis.py:232-294 | keys other than the four variants do not affect the request |
| ClaudeAnalysis.Analyze | src/claude_analysis.py:215-317 | `analyze` is the retry, with policy (3, 2.0, APIError), of "send the request, parse the reply" |
| ClaudeAnalysis.AnalyzeSpec | src/claude_analysis.py:215-317 | the retry, with `asyncio.sleep`, of one request and parse, so at most three calls (seven events); `AnalyzeNonApiErrorPropagates` and `AnalyzeKeepsReply` state what it propagates and what it returns |
| ClaudeAnalysis.AnalyzeNonApiErrorPropagates | src/claude_analysis.py:215 | an exception other than APIError ends `analyze` after one call |
| ClaudeAnalysis.AnalyzeKeepsReply | src/claude_analysis.py:314-317 | a successful `analyze` is the parse of the reply to its last attempt |
| ClaudeAnalysis.Successes | src/claude_analysis.py:348-355 | the kept results are never more than the outcomes |
| ClaudeAnalysis.SuccessesAppend | src/claude_analysis.py:348-353 | filtering keeps order across a concatenation |
| ClaudeAnalysis.SuccessesDropFailures | src/claude_analysis.py:348-355 | the number of results kept is the number of outcomes minus the number of exceptions |
| ClaudeAnalysis.SuccessesAllReturned | src/claude_analysis.py:348-355 | with no failure every result is kept, in input order |
| ClaudeAnalysis.BatchOutcomes | src/claude_analysis.py:340-345 | one `analyze` outcome per symbol of the batch |
| ClaudeAnalysis.BatchOutcomeAt | src/claude_analysis.py:340-345 | the i-th outcome is `analyze` on the i-th symbol's own charts |
| ClaudeAnalysis.BatchResults | src/claude_analysis.py:345-355 | only a KeyboardInterrupt is raised; otherwise the results are the successes of the batch, never more than the symbols |
| ClaudeAnalysis.BatchInterruptedIff | src/claude_analysis.py:345 | `analyze_batch` raises exactly when the analysis of some symbol ends in a KeyboardInterrupt |
| ClaudeAnalysis.AnalyzeBatch | src/claude_analysis.py:319-355 | `analyze_batch` is `BatchResults`: it raises the first KeyboardInterrupt of the batch, otherwise it returns the non-exception results in key order |
| ClaudeAnalysis.GatherAnalyses | src/claude_analysis.py:340-345 | the tasks run in key order; the loop equals `gather`: every outcome, or the first KeyboardInterrupt, after which no later task matters |
| ClaudeAnalysis.InterruptEndsBatch | src/claude_analysis.py:345 | an interrupt among the first n tasks decides what the whole gather raises |
| ClaudeAnalysis.BatchPrefix | src/claude_analysis.py:340-345 | the outcomes of a prefix of the batch are the prefix of its outcomes |
| ClaudeAnalysis.AnalyzeNext | src/claude_analysis.py:336-345 | one task's outcome is appended after those of the entries before it |
| ClaudeAnalysis.BatchStep | src/claude_analysis.py:340-345 | the outcomes of one more entry end with that entry's outcome |
| ClaudeAnalysis.KeepReturned | src/claude_analysis.py:347-355 | the filtering loop keeps exactly the returned values, in order |
| EmailSender.NewSender | src/email_sender.py:23-37 | recipients default to none, prefix to "[Stock Analysis]"; both Gmail credentials must be set, else EnvironmentError |
| EmailSender.SignalColor | src/email_sender.py:39-46 | BUY green, SELL red, HOLD amber, in any case; grey #6c757d otherwise |
| EmailSender.ConfidenceBadge | src/email_sender.py:48-56 | the colour comes from the upper-cased confidence (HIGH/MEDIUM/LOW, grey otherwise); the label shows the confidence as given |
| EmailSender.Field | src/email_sender.py:61-63 | `rec.get(key, default)` |
| EmailSender.RowOf | src/email_sender.py:186-198 | a row shows symbol and primary trend, the signal (default HOLD) with its colour, and the confidence (default LOW); a non-string signal raises AttributeError |
| EmailSender.BuildSummaryRows | src/email_sender.py:184-198 | exactly one row per result, in order, unless some signal cannot be upper-cased |
| EmailSender.PatternLineOf | src/email_sender.py:71-72 | a pattern item shows pattern, implication and completion with defaults Unknown, N/A, N/A |
| EmailSender.RsiLineOf | src/email_sender.py:85-95 | no RSI line for an empty dict; the divergence suffix appears exactly when divergence is not "NONE" |
| EmailSender.LevelsOf | src/email_sender.py:98-99 | support and resistance show N/A exactly when the list is empty |
| EmailSender.Cids | src/email_sender.py:290-293 | the Content-IDs are `chart_{symbol}_{variant}`, in variant order |
| EmailSender.CidInjective | src/email_sender.py:290-293 | a Content-ID determines its variant |
| EmailSender.SectionOf | src/email_sender.py:58-102 | a section fails with AttributeError exactly when the signal or confidence is not a string; otherwise: signal and colour, badge, reasoning; the "no patterns" note iff the list is empty; one item per pattern in order; observations iff any; the RSI line; the levels; both live URLs; the four Content-IDs |
| EmailSender.SectionImpliesRow | src/email_sender.py:186-189 | a result with a section also has a summary row, with the same signal and colour |
| EmailSender.AttachmentsOfVariants | src/email_sender.py:302-336 | the four attachment blocks in variant order |
| EmailSender.AttachCharts | src/email_sender.py:299-336 | the four `if` blocks attach the charts of `ChartAttachments`, in variant order |
| EmailSender.AttachmentsOfUsableVariants | src/email_sender.py:302-336 | one attachment per usable variant, in order, named by Content-ID and `{symbol}_{variant}.png` |
| EmailSender.AttachmentSelection | src/email_sender.py:302-336 | a chart is attached exactly when its variant is one of the four and its file exists |
| EmailSender.AttachmentsMirrorRequest | src/email_sender.py:299-336 | the email attaches exactly the images the analysis request carried, in the same order |
| EmailSender.AllAttachmentsStep | src/email_sender.py:288-336 | one more result adds its own attachments at the end |
| EmailSender.AttachmentsReferenced | src/email_sender.py:288-336 | every attachment's Content-ID is one of the Content-IDs of some result's section |
| EmailSender.ResultAttachmentsReferenced | src/email_sender.py:299-336 | a result's attachments carry its own symbol's Content-IDs |
| EmailSender.DatePlaceholderForm | src/email_sender.py:339 | `{{date}}` is a placeholder |
| EmailSender.TablePlaceholderForm | src/email_sender.py:340 | `{{summary_table}}` is a placeholder |
| EmailSender.DetailsPlaceholderForm | src/email_sender.py:341 | `{{detailed_analysis}}` is a placeholder |
| EmailSender.NoBraceConcat | src/email_sender.py:339-341 | brace-free texts concatenate to a brace-free text |
| EmailSender.DateReplaced | src/email_sender.py:339 | the date placeholder occurs once and is replaced |
| EmailSender.TableReplaced | src/email_sender.py:340 | the table placeholder occurs once and is replaced |
| EmailSender.FillTemplate | src/email_sender.py:339-341 | the three chained `replace` calls yield no character that is not in the template, the date or the two inserted texts; `FillTemplateReplacesPlaceholders` states the replacement itself |
| EmailSender.FillTemplateReplacesPlaceholders | src/email_sender.py:339-341 | on a template whose only braces are its three placeholders, in the default's order, each placeholder is replaced by its text |
| EmailSender.Regroup | src/email_sender.py:339-341 | regrouping the template's seven parts |
| EmailSender.DateStep | src/email_sender.py:339 | the first `replace` puts the date in place |
| EmailSender.TableStep | src/email_sender.py:340 | the second puts the table in place |
| EmailSender.DetailsStep | src/email_sender.py:341 | the third puts the sections in place |
| EmailSender.Rows | src/email_sender.py:182-198 | the summary rows of renderable results, one per result |
| EmailSender.SectionsHtml | src/email_sender.py:288-296 | one rendered section per result |
| EmailSender.SectionsHtmlAt | src/email_sender.py:288-296 | section i is the rendering of result i's section |
| EmailSender.ImagesOf | src/email_sender.py:299-300 | the loop collecting one result's images yields that result's attachments |
| EmailSender.SectionsStep | src/email_sender.py:288-296 | one more renderable result adds its section at the end |
| EmailSender.AssembleSections | src/email_sender.py:285-336 | the loop gives one section per result and the attachments of all results; it fails exactly when some result cannot be rendered |
| EmailSender.SendReport | src/email_sender.py:253-369 | nothing built or sent without results or recipients; AttributeError before sending for an unrenderable result; otherwise the message with subject `{prefix} Daily Report - {date}`, To joined by ", ", the filled template and the attachments goes to SMTP, and whatever SMTP raises is re-raised unchanged |
| EmailSender.Subject | src/email_sender.py:277 | the subject starts with the configured prefix, ends with the date, and is exactly " Daily Report - " longer than the two |
| EmailSender.ReportOf | src/email_sender.py:275-345 | the message `send_report` builds: the subject carries the prefix and the date, From is the Gmail address and the recipients are the configured ones; `ReportImagesReferenced` and `ReportBody` state its images and its body |
| EmailSender.ReportImagesReferenced | src/email_sender.py:290-336 | every image of the message is referenced by some section |
| EmailSender.ReportBody | src/email_sender.py:338-341 | on a default-shaped template the body is the template with the stamp, the table and the sections joined by "\n" in result order |
| Pipeline.TaskOutcome | src/main.py:117-128 | `process_ticker` turns every Exception from `capture` into `(symbol, e)` and returns the captured paths otherwise; only a KeyboardInterrupt escapes, unchanged; a ticker without a symbol fails its task with KeyError, which the aggregation files under "unknown" |
| Pipeline.GatheredOutcomes | src/main.py:131-134 | `gather` returns one outcome per ticker in ticker order, or else the first exception that escapes a task |
| Pipeline.Gathered | src/main.py:131-134 | `gather` over the tickers' tasks returns exactly one outcome per ticker, or raises only a KeyboardInterrupt (see `GatheredOutcomes` for order and which one) |
| Pipeline.GatherCaptures | src/main.py:131-134 | awaiting the tasks in list order gives `Gathered` |
| Pipeline.GatheredStaysRaised | src/main.py:131-134 | once an exception escaped, later tickers do not change the outcome |
| Pipeline.Stored | src/main.py:136-144 | the screenshots dict has unique keys |
| Pipeline.Aggregate | src/main.py:136-144 | the loop after `gather` yields `Stored` and `Errors` of the outcomes |
| Pipeline.EachOutcomeOnce | src/main.py:136-144 | each outcome lands in exactly one of screenshots or errors |
| Pipeline.LastCaptureWins | src/main.py:144 | a symbol's screenshots are those of its last capture, even an empty dict |
| Pipeline.StoredSymbols | src/main.py:144 | the symbols with screenshots are exactly the captured ones |
| Pipeline.CaptureError | src/main.py:114-144 | the capture phase ends with the start-up exception; else with a KeyboardInterrupt that escaped `gather`, which wins over any teardown failure (`asyncio.run` cancels the main task and only logs what its teardown raises); else with the teardown's; it ends with nothing exactly when the browser starts and stops cleanly and `gather` returns; any non-Exception it raises comes from one of these three |
| Pipeline.CaptureExceptionsAreContained | src/main.py:118-128 | with the browser starting and stopping cleanly, an Exception from a ticker's `capture` never ends the capture phase |
| Pipeline.CaptureBlock | src/main.py:116-144 | the body of the `async with`: either a KeyboardInterrupt escapes `gather`, or screenshots and errors are the sorted outcomes |
| Pipeline.CapturePhase | src/main.py:114-144 | the capture runs inside the browser session; the browser is closed and Playwright stopped afterwards, also when an exception escapes `gather`, with the events of each teardown case; it ends with `CaptureError`, so a teardown failure replaces a block that returned and an interrupt from `gather` wins over the teardown |
| Pipeline.AnalysisOf | src/main.py:147-150 | no results in a dry run or without screenshots; never more results than screenshots; only a KeyboardInterrupt from `analyze_batch` propagates |
| Pipeline.AnalysisPhase | src/main.py:147-150 | the gate at line 148 around `analyze_batch` computes `AnalysisOf` |
| Pipeline.AfterAnalysis | src/main.py:146-195 | after phase 2: a KeyboardInterrupt from the analysis ends the run with no results and nothing emailed or written; otherwise the raised exception, the added errors and the message are `EmailOutcome` of the results, and `results.json` is written exactly when there are results and nothing propagated |
| Pipeline.EmailOutcome | src/main.py:161-167 | phase 3 records at most one error, an Exception tagged "email", and then propagates nothing; it propagates only the missing-credentials EnvironmentError or a non-Exception from SMTP; a message is handed to SMTP only behind the gate, with credentials and renderable results, and it is the run's report |
| Pipeline.EmailPhase | src/main.py:161-167 | computes `EmailOutcome`: the email is attempted only with `send_email`, no dry run and some results; missing credentials propagate; an Exception from `send_report` becomes the one ("email", e) error; anything else propagates |
| Pipeline.EntryOf | src/main.py:176-190 | an entry has exactly the twelve keys, and no `raw_response` |
| Pipeline.ResultsDocument | src/main.py:174-193 | `{"run_at", "results"}` with one entry per result, in result order |
| Pipeline.NumbersRoundTrip | src/main.py:183-184 | a list of prices reads back from its JSON array |
| Pipeline.StringsRoundTrip | src/main.py:188 | a list of observations reads back from its JSON array |
| Pipeline.ObjectsRoundTrip | src/main.py:182 | a list of pattern objects reads back from its JSON array |
| Pipeline.EntryRoundTrip | src/main.py:176-190 | an entry reads back to the record, given its raw reply |
| Pipeline.EntryDropsOnlyRawResponse | src/main.py:176-190 | two records with the same entry differ only in `raw_response` |
| Pipeline.RunOutcome | src/main.py:82-205 | a missing API key without `--dry-run` makes the run raise the analyzer's EnvironmentError naming the missing variable; a run that raises nothing completed the capture phase and its analysis returned |
| Pipeline.RunAnalysis | src/main.py:82-205 | the run propagates exactly `RunOutcome`: the analyzer's missing key, the capture phase's `CaptureError` or a KeyboardInterrupt from the analysis ends the run with that exception and nothing emailed or written; otherwise screenshots and errors are the aggregated outcomes; results are the analyses when allowed; the email outcome is `EmailOutcome` of those results; `results.json` is written exactly when there are results and nothing propagated |
| Pipeline.ReportPhase | src/main.py:153-195 | the raised exception, the errors after the capture errors and the message are `EmailOutcome`; `results.json` holds the results document exactly when there are results and nothing propagated |
| Pipeline.TickersFromArgs | src/main.py:235-236 | `-t` tickers are upper-cased, with name equal to symbol |
| Pipeline.SelectTickers | src/main.py:235-238 | the `-t` tickers when given, otherwise the configured ones |
| Pipeline.ArgTickersAreUpperCase | src/main.py:236 | each `-t` symbol is already upper case |
| Pipeline.RunSettings | src/main.py:219-220 | `--no-headless` sets `headless` to False and leaves the rest of the configuration unchanged |
| Pipeline.ExitCode | src/main.py:247-289 | 0 when the run returned, 130 for KeyboardInterrupt, 1 for any other exception |
| Pipeline.SummarySignal | src/main.py:265-266 | `rec.get("signal", "N/A")`: the recommendation's signal, or the string "N/A" when it has none |
| Pipeline.ColorLookupError | src/main.py:270-272 | `colors.get(signal, "")` raises TypeError exactly when the signal is a JSON array or object (a list or dict, unhashable) |
| Pipeline.SummaryError | src/main.py:259-279 | the summary raises nothing exactly when every result's signal is hashable; otherwise it raises the TypeError of the first result whose signal is not |
| Pipeline.PrintSummary | src/main.py:259-279 | the loop over the results computes `SummaryError` |
| Pipeline.MainOutcome | src/main.py:247-279 | the exception that ends `main`'s `try` is the run's when it raised one; otherwise it can only be the summary's TypeError |
| Pipeline.SummaryTypeErrorExits1 | src/main.py:264-289 | a run that propagated nothing but returned a result whose signal is a list or dict still exits with 1 |
| Pipeline.RunExitsZeroIff | src/main.py:247-281 | the process exits with 0 exactly when the API key is present when needed, the capture phase completes, the analysis raises nothing, the email phase propagates nothing and every result's signal is hashable in the console summary |
| Pipeline.InterruptedRunExits130 | src/main.py:283-285 | once the browser has started, a KeyboardInterrupt escaping the capture `gather` exits with 130 whatever the teardown does; one escaping `analyze_batch` after a clean teardown does too |
| Pipeline.FailedRunExits1 | src/main.py:287-289 | a missing API key exits with 1; exit code 1 comes only from the missing API key, a browser start-up or teardown failure, missing Gmail credentials or the summary's TypeError, never from one ticker's capture |
| Pipeline.BrowserFailureExits1 | src/main.py:114 | an Exception from the browser start-up, or from its teardown after a clean start and a block that returned, ends the process with 1 |
| Pipeline.MissingCredentialsExit1 | src/main.py:161-162 | missing Gmail credentials, once the email is due after a completed capture and a non-empty analysis, end the process with 1 (the sender is built at line 161, outside the `try`) |
| Pipeline.RunMain | src/main.py:208-289 | the tickers are the `-t` ones or the configured ones; no tickers gives 1 without running; a ticker without a symbol raises KeyError at line 244, before the run, and the process exits with 1; otherwise `main` ends with `MainOutcome` under the `--no-headless` settings (the run's exception, else the summary's TypeError) and the exit code is that outcome's: 1 for a missing API key, and the exit code of the exception when the browser does not start |

## Left out

- Playwright itself: navigation, waits, visibility checks, downloads and screenshots (`src/chart_capture.py`, `src/browser.py`) are parameters returning visible or hidden, ok or failed, or the exception raised. `_dismiss_popups`, `_configure_chart_type`, `_click_update_button` and `_save_chart_image` are such oracles: their internal selector loops are not modelled, because each one catches its own exceptions and only its result matters.
- The Anthropic client call, base64 image loading and the prompt text (`src/claude_analysis.py:159-162`, `src/claude_analysis.py:303-314`) are the `Api` parameter. A request item is a caption, an image by its file, or the prompt for the symbol.
- ClaudeAnalysis.ParseResponse: `json.loads` is a parameter that returns typed optional fields. A field of the wrong JSON type, which Python would store as is, is not modelled.
- EmailSender.SectionOf: the HTML markup is produced by renderer parameters. The model fixes every choice the markup depends on, but not the markup strings. The `${s:,.2f}` price formatting is float formatting and is left out; prices are kept as numbers.
- EmailSender.SendReport: MIME construction and the SMTP exchange are one parameter that receives the assembled message and may raise. The subject date, the body's date stamp and `_load_template` are parameters (the template file is I/O).
- Utils.Retry: requires `max_attempts >= 1`. With 0 attempts Python calls nothing and fails on `raise None`, which the model does not cover.
- Utils.Delay: delays are mathematical reals, without float rounding. Sleeping is an event in the trace, not elapsed time. The warning text is reduced to its attempt number, maximum, exception and delay.
- Text.Upper: `str.upper` is modelled for ASCII letters only; other characters are kept.
- ClaudeAnalysis.GatherAnalyses: `asyncio.gather` and the semaphores (`src/main.py:115-134`, `src/claude_analysis.py:334-345`, `src/chart_capture.py:530-534`) are modelled as sequential, order-preserving loops. Permit counting, interleaving and the `max_concurrent` arguments do not appear.
- Pipeline.GatherCaptures: a KeyboardInterrupt that escapes one task ends the gather at that ticker. Cancellation of tasks already in flight is not modelled.
- ClaudeAnalysis.BatchResults: a KeyboardInterrupt that escapes one analysis task ends the batch; with several, the first in key order is the one raised, whatever the real completion order.
- ChartCapture.CapturePnfChart: the P&F page's failures are flags that its `except Exception` handlers catch; a KeyboardInterrupt raised inside the P&F capture is not modelled (one raised when its page opens is).
- ChartCapture.Capture: when both sub-captures end in a KeyboardInterrupt, the candlestick one is raised, whatever the real completion order.
- ChartCapture.Capture: the page and context of each sub-capture (`src/chart_capture.py:520-526`) are taken to close cleanly. A close that raises, as `Browser.AsyncBrowserManager.WithPage` models it, is not threaded through the two sub-captures.
- Logging and the text of the console summary printed by `main` (`src/main.py:259-279`) are left out: they change no state the model keeps. The summary's one failure, the TypeError of its color lookup, is modelled by `Pipeline.PrintSummary`.
- YAML, dotenv and config loading, `setup_logging`, argparse, `--verbose`, `get_project_root`, `get_screenshot_path` and directory creation are left out. Configuration arrives as the datatypes `Settings`, `Args` and `BrowserConfig` (`src/utils.py:15-63`, `src/utils.py:152-156`, `src/main.py:24-79`).
- Pipeline.ResultsDocument: `json.dumps` and the file write to `results.json` (`src/main.py:194`) are left out. The document is a JSON value, without key order or indentation, and an error while writing it is not modelled. `run_at` is a parameter, because the clock is not modelled.
- EmailSender.RowOf: the exception text of a failing `.upper()` is a fixed AttributeError message, not Python's exact wording. Pattern items that are not dicts are excluded by the types.
- A path is modelled by its file name, `{symbol}_{variant}.png`; the screenshots directory is left out.
