/** The analysis step: assembling the request for the vision model, turning its
    reply into an analysis record (degrading to a neutral record when the reply
    holds no usable JSON), and analysing a batch of symbols. */
module ClaudeAnalysis {
  import opened Common
  import opened Text
  import opened Utils

  /** The `AnalysisResult` record, one field per dataclass field. */
  datatype AnalysisResult = AnalysisResult(
    symbol: string,
    analysisDate: string,
    primaryTrend: string,
    secondaryTrend: string,
    patternsIdentified: seq<map<string, Json>>,
    supportLevels: seq<real>,
    resistanceLevels: seq<real>,
    volumeAssessment: string,
    rsi: map<string, Json>,
    recommendation: map<string, Json>,
    keyObservations: seq<string>,
    summary: string,
    rawResponse: string)

  /** What `json.loads` makes of a candidate, seen through the record's field
      types: each field the object carries, or None when the key is absent. */
  datatype Decoded = Decoded(
    symbol: Option<string>,
    analysisDate: Option<string>,
    primaryTrend: Option<string>,
    secondaryTrend: Option<string>,
    patternsIdentified: Option<seq<map<string, Json>>>,
    supportLevels: Option<seq<real>>,
    resistanceLevels: Option<seq<real>>,
    volumeAssessment: Option<string>,
    rsi: Option<map<string, Json>>,
    recommendation: Option<map<string, Json>>,
    keyObservations: Option<seq<string>>,
    summary: Option<string>)

  /** A JSON decoder: None when it raises JSONDecodeError. */
  type Decoder = string -> Option<Decoded>

  // ---------------------------------------------------------------------------
  // _parse_response
  // ---------------------------------------------------------------------------

  /** The match of `\{[\s\S]*\}`: from the first `{` to the last `}`, provided
      that `}` comes after that `{`. */
  function Candidate(text: string): (r: Option<string>)
    ensures r.Some? ==> exists i, j :: (0 <= i < j < |text| && text[i] == '{' && text[j] == '}'
      && r.value == text[i..j + 1]
      && (forall k :: 0 <= k < i ==> text[k] != '{')
      && (forall k :: j < k < |text| ==> text[k] != '}'))
  {
    var open, close := FirstIndex(text, '{'), LastIndex(text, '}');
    if open.Some? && close.Some? && open.value < close.value then
      Some(text[open.value..close.value + 1])
    else
      None
  }

  /** There is a candidate exactly when some `{` is followed by some `}`. */
  lemma CandidateExists(text: string)
    ensures Candidate(text).Some? <==> exists i, j :: 0 <= i < j < |text| && text[i] == '{' && text[j] == '}'
  {
    if i, j :| 0 <= i < j < |text| && text[i] == '{' && text[j] == '}' {
      var open, close := FirstIndex(text, '{'), LastIndex(text, '}');
      assert open.Some? && open.value <= i;
      assert close.Some? && j <= close.value;
    }
  }

  /** The candidate starts with `{` and ends with `}`. */
  lemma CandidateIsBraced(text: string)
    requires Candidate(text).Some?
    ensures var c := Candidate(text).value; |c| >= 2 && c[0] == '{' && c[|c| - 1] == '}'
  {
    var i, j :| 0 <= i < j < |text| && text[i] == '{' && text[j] == '}' && Candidate(text).value == text[i..j + 1];
    assert text[i..j + 1][0] == text[i];
    assert text[i..j + 1][j - i] == text[j];
  }

  /** `text[:500] if len(text) > 500 else text`. */
  function Truncate(text: string): (r: string)
    ensures |r| == (if |text| > 500 then 500 else |text|)
    ensures r == text[..|r|]
  {
    if |text| > 500 then text[..500] else text
  }

  const FallbackRecommendation: map<string, Json> :=
    map["signal" := JStr("HOLD"), "confidence" := JStr("LOW"), "reasoning" := JStr("Unable to parse analysis")]

  /** The candidate of `text` decodes. */
  predicate Decodes(text: string, decode: Decoder) {
    Candidate(text).Some? && decode(Candidate(text).value).Some?
  }

  /** `_parse_response`: never raises. A decodable candidate gives its fields,
      each absent one taking its default; otherwise the neutral fallback. The raw
      reply is kept either way. */
  function ParseResponse(text: string, symbol: string, decode: Decoder): (r: AnalysisResult)
    ensures r.rawResponse == text
    ensures Decodes(text, decode) ==>
      var d := decode(Candidate(text).value).value;
      r.symbol == OrElse(d.symbol, symbol)
      && r.analysisDate == OrElse(d.analysisDate, "")
      && r.primaryTrend == OrElse(d.primaryTrend, "NEUTRAL")
      && r.secondaryTrend == OrElse(d.secondaryTrend, "NEUTRAL")
      && r.patternsIdentified == OrElse(d.patternsIdentified, [])
      && r.supportLevels == OrElse(d.supportLevels, [])
      && r.resistanceLevels == OrElse(d.resistanceLevels, [])
      && r.volumeAssessment == OrElse(d.volumeAssessment, "NEUTRAL")
      && r.rsi == OrElse(d.rsi, map[])
      && r.recommendation == OrElse(d.recommendation, map[])
      && r.keyObservations == OrElse(d.keyObservations, [])
      && r.summary == OrElse(d.summary, "")
    ensures !Decodes(text, decode) ==>
      r.symbol == symbol && r.analysisDate == ""
      && r.primaryTrend == "UNKNOWN" && r.secondaryTrend == "UNKNOWN" && r.volumeAssessment == "UNKNOWN"
      && r.patternsIdentified == [] && r.supportLevels == [] && r.resistanceLevels == []
      && r.rsi == map[] && r.recommendation == FallbackRecommendation && r.keyObservations == []
      && |r.summary| == (if |text| > 500 then 500 else |text|) && r.summary == text[..|r.summary|]
  {
    if Decodes(text, decode) then
      var d := decode(Candidate(text).value).value;
      AnalysisResult(
        OrElse(d.symbol, symbol), OrElse(d.analysisDate, ""),
        OrElse(d.primaryTrend, "NEUTRAL"), OrElse(d.secondaryTrend, "NEUTRAL"),
        OrElse(d.patternsIdentified, []), OrElse(d.supportLevels, []), OrElse(d.resistanceLevels, []),
        OrElse(d.volumeAssessment, "NEUTRAL"), OrElse(d.rsi, map[]), OrElse(d.recommendation, map[]),
        OrElse(d.keyObservations, []), OrElse(d.summary, ""), text)
    else
      AnalysisResult(symbol, "", "UNKNOWN", "UNKNOWN", [], [], [], "UNKNOWN", map[],
        FallbackRecommendation, [], Truncate(text), text)
  }

  /** A reply without any `{` before a `}` always degrades, whatever the decoder. */
  lemma NoBracesFallsBack(text: string, symbol: string, decode: Decoder)
    requires forall i, j :: 0 <= i < j < |text| && text[i] == '{' ==> text[j] != '}'
    ensures ParseResponse(text, symbol, decode).recommendation == FallbackRecommendation
    ensures ParseResponse(text, symbol, decode).primaryTrend == "UNKNOWN"
    ensures ParseResponse(text, symbol, decode).symbol == symbol
  {
    CandidateExists(text);
  }

  // ---------------------------------------------------------------------------
  // The content list of `analyze`
  // ---------------------------------------------------------------------------

  /** One item of the request: a caption, an image (by its file) or the prompt
      for the symbol. */
  datatype ContentItem = Caption(text: string) | Image(path: string) | Prompt(symbol: string)

  function CaptionOf(variant: string): string {
    if variant == "daily" then "DAILY CHART:"
    else if variant == "weekly" then "WEEKLY CHART:"
    else if variant == "pnf_daily" then "POINT & FIGURE DAILY CHART:"
    else "POINT & FIGURE WEEKLY CHART:"
  }

  /** The variant is in the dict and its file exists. */
  predicate Usable(paths: Artifacts, onDisk: string -> bool, v: string) {
    v in paths && onDisk(paths[v])
  }

  /** The caption and image of one variant, or nothing when it is not usable. */
  function Pair(paths: Artifacts, onDisk: string -> bool, v: string): seq<ContentItem> {
    if Usable(paths, onDisk, v) then [Caption(CaptionOf(v)), Image(paths[v])] else []
  }

  /** A caption and image pair per usable variant of `vs`, in the order of `vs`. */
  function Pairs(paths: Artifacts, onDisk: string -> bool, vs: seq<string>): seq<ContentItem>
  {
    if |vs| == 0 then [] else Pair(paths, onDisk, vs[0]) + Pairs(paths, onDisk, vs[1..])
  }

  /** The usable variants of `vs`, in order. */
  function UsableVariants(paths: Artifacts, onDisk: string -> bool, vs: seq<string>): (u: seq<string>)
    ensures |u| <= |vs|
    ensures forall v :: v in u <==> v in vs && Usable(paths, onDisk, v)
    ensures forall j :: 0 <= j < |u| ==> Usable(paths, onDisk, u[j])
  {
    if |vs| == 0 then []
    else
      var head := if Usable(paths, onDisk, vs[0]) then [vs[0]] else [];
      head + UsableVariants(paths, onDisk, vs[1..])
  }

  /** The request `analyze` sends: the pairs in variant order, then the prompt. */
  function ContentSpec(paths: Artifacts, symbol: string, onDisk: string -> bool): seq<ContentItem> {
    Pairs(paths, onDisk, Variants) + [Prompt(symbol)]
  }

  /** The content of `analyze`, appended item by item. */
  method BuildContent(paths: Artifacts, symbol: string, onDisk: string -> bool) returns (content: seq<ContentItem>)
    ensures content == ContentSpec(paths, symbol, onDisk)
  {
    content := [];
    if "daily" in paths && onDisk(paths["daily"]) {
      content := content + [Caption("DAILY CHART:"), Image(paths["daily"])];
    }
    assert content == Pair(paths, onDisk, "daily");
    if "weekly" in paths && onDisk(paths["weekly"]) {
      content := content + [Caption("WEEKLY CHART:"), Image(paths["weekly"])];
    }
    assert content == Pair(paths, onDisk, "daily") + Pair(paths, onDisk, "weekly");
    if "pnf_daily" in paths && onDisk(paths["pnf_daily"]) {
      content := content + [Caption("POINT & FIGURE DAILY CHART:"), Image(paths["pnf_daily"])];
    }
    assert content == Pair(paths, onDisk, "daily") + Pair(paths, onDisk, "weekly") + Pair(paths, onDisk, "pnf_daily");
    if "pnf_weekly" in paths && onDisk(paths["pnf_weekly"]) {
      content := content + [Caption("POINT & FIGURE WEEKLY CHART:"), Image(paths["pnf_weekly"])];
    }
    PairsOfVariants(paths, onDisk);
    content := content + [Prompt(symbol)];
  }

  /** The pairs of the four variants, spelled out. */
  lemma PairsOfVariants(paths: Artifacts, onDisk: string -> bool)
    ensures Pairs(paths, onDisk, Variants)
      == Pair(paths, onDisk, "daily") + Pair(paths, onDisk, "weekly")
         + Pair(paths, onDisk, "pnf_daily") + Pair(paths, onDisk, "pnf_weekly")
  {
    var v3: seq<string> := ["pnf_weekly"];
    var v2: seq<string> := ["pnf_daily", "pnf_weekly"];
    var v1: seq<string> := ["weekly", "pnf_daily", "pnf_weekly"];
    assert v3[1..] == [] && v2[1..] == v3 && v1[1..] == v2 && Variants[1..] == v1;
    assert Pairs(paths, onDisk, v3) == Pair(paths, onDisk, "pnf_weekly") + Pairs(paths, onDisk, []);
    assert Pairs(paths, onDisk, v2) == Pair(paths, onDisk, "pnf_daily") + Pairs(paths, onDisk, v3);
    assert Pairs(paths, onDisk, v1) == Pair(paths, onDisk, "weekly") + Pairs(paths, onDisk, v2);
    assert Pairs(paths, onDisk, Variants) == Pair(paths, onDisk, "daily") + Pairs(paths, onDisk, v1);
  }

  /** `p` holds, at positions 2j and 2j+1, the caption and the image of `u[j]`. */
  predicate Laid(paths: Artifacts, p: seq<ContentItem>, u: seq<string>) {
    |p| == 2 * |u|
    && forall j :: 0 <= j < |u| ==> u[j] in paths && p[2 * j] == Caption(CaptionOf(u[j])) && p[2 * j + 1] == Image(paths[u[j]])
  }

  /** Putting one more pair in front keeps the layout. */
  lemma LaidCons(paths: Artifacts, v: string, p: seq<ContentItem>, u: seq<string>)
    requires v in paths && Laid(paths, p, u)
    ensures Laid(paths, [Caption(CaptionOf(v)), Image(paths[v])] + p, [v] + u)
  {
    var p2, u2 := [Caption(CaptionOf(v)), Image(paths[v])] + p, [v] + u;
    forall j | 0 <= j < |u2|
      ensures u2[j] in paths && p2[2 * j] == Caption(CaptionOf(u2[j])) && p2[2 * j + 1] == Image(paths[u2[j]])
    {
      if j > 0 {
        assert u2[j] == u[j - 1];
        assert p2[2 * j] == p[2 * (j - 1)] && p2[2 * j + 1] == p[2 * (j - 1) + 1];
      }
    }
  }

  /** The pairs hold, at positions 2j and 2j+1, the caption and the image of the
      j-th usable variant. */
  lemma {:induction false} PairsLayout(paths: Artifacts, onDisk: string -> bool, vs: seq<string>)
    ensures Laid(paths, Pairs(paths, onDisk, vs), UsableVariants(paths, onDisk, vs))
  {
    if |vs| > 0 {
      PairsLayout(paths, onDisk, vs[1..]);
      var p, u := Pairs(paths, onDisk, vs[1..]), UsableVariants(paths, onDisk, vs[1..]);
      if Usable(paths, onDisk, vs[0]) {
        LaidCons(paths, vs[0], p, u);
      } else {
        assert Pairs(paths, onDisk, vs) == p;
        assert UsableVariants(paths, onDisk, vs) == u;
      }
    }
  }

  /** The request has 2k+1 items for k usable variants: the pairs in the order
      daily, weekly, pnf_daily, pnf_weekly, and the prompt last. */
  lemma ContentLayout(paths: Artifacts, symbol: string, onDisk: string -> bool)
    ensures var c, u := ContentSpec(paths, symbol, onDisk), UsableVariants(paths, onDisk, Variants);
      |c| == 2 * |u| + 1
      && c[|c| - 1] == Prompt(symbol)
      && (forall j :: 0 <= j < |u| ==> c[2 * j] == Caption(CaptionOf(u[j])) && c[2 * j + 1] == Image(paths[u[j]]))
      && (forall v :: v in u <==> v in Variants && Usable(paths, onDisk, v))
  {
    PairsLayout(paths, onDisk, Variants);
  }

  /** Keys other than the four variants have no effect on the request. */
  lemma {:induction false} OtherKeysIgnored(p1: Artifacts, p2: Artifacts, onDisk: string -> bool, vs: seq<string>)
    requires forall v :: v in vs ==> (v in p1 <==> v in p2) && (v in p1 ==> p1[v] == p2[v])
    ensures Pairs(p1, onDisk, vs) == Pairs(p2, onDisk, vs)
  {
    if |vs| > 0 {
      assert vs[0] in vs;
      OtherKeysIgnored(p1, p2, onDisk, vs[1..]);
    }
  }

  // ---------------------------------------------------------------------------
  // analyze, with its retry decorator
  // ---------------------------------------------------------------------------

  /** `@async_retry(max_attempts=3, delay=2.0, exceptions=(anthropic.APIError,))`. */
  const AnalyzePolicy: RetryPolicy := RetryPolicy(3, 2.0, 2.0, {APIError})

  /** The model's API: the reply text to a request on a given attempt, or the
      exception the call raises. */
  type Api = (seq<ContentItem>, nat) -> Attempt<string>

  /** One attempt of `analyze`: send the request, parse the reply. */
  function AnalyzeAttempt(content: seq<ContentItem>, symbol: string, api: Api, decode: Decoder): nat -> Attempt<AnalysisResult> {
    (n: nat) => AttemptOutcome(content, symbol, api, decode, n)
  }

  /** Attempt `n`: the parsed reply, or the exception the API call raised. */
  function AttemptOutcome(content: seq<ContentItem>, symbol: string, api: Api, decode: Decoder, n: nat): Attempt<AnalysisResult> {
    match api(content, n)
    case Returned(text) => Returned(ParseResponse(text, symbol, decode))
    case Raised(e) => Raised(e)
  }

  /** What `analyze(paths, symbol)` does, retries included. */
  function AnalyzeSpec(paths: Artifacts, symbol: string, onDisk: string -> bool, api: Api, decode: Decoder): (r: RetryRun<AnalysisResult>)
    ensures |r.trace| <= 3 * AnalyzePolicy.maxAttempts - 2
  {
    RetrySpec(AnalyzePolicy, AnalyzeAttempt(ContentSpec(paths, symbol, onDisk), symbol, api, decode), AsyncioSleep)
  }

  method Analyze(paths: Artifacts, symbol: string, onDisk: string -> bool, api: Api, decode: Decoder)
    returns (run: RetryRun<AnalysisResult>)
    ensures run == AnalyzeSpec(paths, symbol, onDisk, api, decode)
  {
    var content := BuildContent(paths, symbol, onDisk);
    run := AsyncRetry(AnalyzePolicy, AnalyzeAttempt(content, symbol, api, decode));
  }

  /** An API error is retried up to three attempts; any other exception ends
      `analyze` on the attempt that raised it. */
  lemma AnalyzeNonApiErrorPropagates(paths: Artifacts, symbol: string, onDisk: string -> bool, api: Api, decode: Decoder, e: Exc)
    requires e.cls != APIError
    requires api(ContentSpec(paths, symbol, onDisk), 0) == Raised(e)
    ensures AnalyzeSpec(paths, symbol, onDisk, api, decode).outcome == Raised(e)
    ensures Calls(AnalyzeSpec(paths, symbol, onDisk, api, decode).trace) == [0]
  {
    var call := AnalyzeAttempt(ContentSpec(paths, symbol, onDisk), symbol, api, decode);
    assert call(0) == Raised(e);
    RetryUnlistedPropagates(AnalyzePolicy, call, AsyncioSleep, 0);
    assert seq(1, j => j) == [0];
  }

  /** A reply received on any attempt is parsed, so a successful `analyze` keeps
      that reply verbatim as its raw response. */
  lemma AnalyzeKeepsReply(paths: Artifacts, symbol: string, onDisk: string -> bool, api: Api, decode: Decoder)
    requires AnalyzeSpec(paths, symbol, onDisk, api, decode).outcome.Returned?
    ensures var content, last := ContentSpec(paths, symbol, onDisk),
                                 LastAttempt(AnalyzePolicy, AnalyzeAttempt(ContentSpec(paths, symbol, onDisk), symbol, api, decode));
      api(content, last).Returned?
      && AnalyzeSpec(paths, symbol, onDisk, api, decode).outcome.value == ParseResponse(api(content, last).value, symbol, decode)
  {
  }

  // ---------------------------------------------------------------------------
  // analyze_batch
  // ---------------------------------------------------------------------------

  /** The values of the calls that returned, in order. */
  function Successes<T>(outcomes: seq<Attempt<T>>): (r: seq<T>)
    ensures |r| <= |outcomes|
  {
    if |outcomes| == 0 then []
    else
      var last := outcomes[|outcomes| - 1];
      Successes(outcomes[..|outcomes| - 1]) + (if last.Returned? then [last.value] else [])
  }

  function FailureCount<T>(outcomes: seq<Attempt<T>>): nat {
    if |outcomes| == 0 then 0
    else FailureCount(outcomes[..|outcomes| - 1]) + (if outcomes[|outcomes| - 1].Raised? then 1 else 0)
  }

  /** Filtering keeps order: the successes of a concatenation are the
      successes of each part, one after the other. */
  lemma {:induction false} SuccessesAppend<T>(a: seq<Attempt<T>>, b: seq<Attempt<T>>)
    ensures Successes(a + b) == Successes(a) + Successes(b)
    decreases |b|
  {
    if |b| > 0 {
      var b' := b[..|b| - 1];
      assert (a + b)[..|a + b| - 1] == a + b';
      SuccessesAppend(a, b');
    } else {
      assert a + b == a;
    }
  }

  /** Exactly the failed outcomes are dropped. */
  lemma {:induction false} SuccessesDropFailures<T>(outcomes: seq<Attempt<T>>)
    ensures |Successes(outcomes)| == |outcomes| - FailureCount(outcomes)
  {
    if |outcomes| > 0 {
      SuccessesDropFailures(outcomes[..|outcomes| - 1]);
    }
  }

  /** With no failure, every result is kept, in input order. */
  lemma {:induction false} SuccessesAllReturned<T>(outcomes: seq<Attempt<T>>)
    requires forall i :: 0 <= i < |outcomes| ==> outcomes[i].Returned?
    ensures |Successes(outcomes)| == |outcomes|
    ensures forall i :: 0 <= i < |outcomes| ==> Successes(outcomes)[i] == outcomes[i].value
  {
    if |outcomes| > 0 {
      SuccessesAllReturned(outcomes[..|outcomes| - 1]);
    }
  }

  /** The outcome of `analyze` for each entry of the batch, in key order (the
      order `asyncio.gather` returns them in). */
  function BatchOutcomes(all: Dict<Artifacts>, onDisk: string -> bool, api: Api, decode: Decoder): (r: seq<Attempt<AnalysisResult>>)
    ensures |r| == |all|
  {
    if |all| == 0 then []
    else
      var last := all[|all| - 1];
      BatchOutcomes(all[..|all| - 1], onDisk, api, decode) + [AnalyzeSpec(last.1, last.0, onDisk, api, decode).outcome]
  }

  /** Entry i of the batch gets the outcome of `analyze` on its own artifacts. */
  lemma {:induction false} BatchOutcomeAt(all: Dict<Artifacts>, onDisk: string -> bool, api: Api, decode: Decoder, i: nat)
    requires i < |all|
    ensures BatchOutcomes(all, onDisk, api, decode)[i] == AnalyzeSpec(all[i].1, all[i].0, onDisk, api, decode).outcome
  {
    if i < |all| - 1 {
      BatchOutcomeAt(all[..|all| - 1], onDisk, api, decode, i);
    }
  }

  /** What `analyze_batch` returns: the results that are not exceptions, in
      key order; or the KeyboardInterrupt that ends its `gather`. */
  function BatchResults(all: Dict<Artifacts>, onDisk: string -> bool, api: Api, decode: Decoder): (r: Attempt<seq<AnalysisResult>>)
    ensures r.Raised? ==> !IsException(r.error.cls)
    ensures r.Returned? ==> r.value == Successes(BatchOutcomes(all, onDisk, api, decode)) && |r.value| <= |all|
  {
    var outcomes := BatchOutcomes(all, onDisk, api, decode);
    match FirstInterrupt(outcomes)
    case Some(i) => Raised(outcomes[i].error)
    case None => Returned(Successes(outcomes))
  }

  /** `analyze_batch` raises exactly when the analysis of some symbol ends in
      a KeyboardInterrupt. */
  lemma BatchInterruptedIff(all: Dict<Artifacts>, onDisk: string -> bool, api: Api, decode: Decoder)
    ensures BatchResults(all, onDisk, api, decode).Raised?
        <==> exists i :: 0 <= i < |all| && Interrupts(AnalyzeSpec(all[i].1, all[i].0, onDisk, api, decode).outcome)
  {
    var outcomes := BatchOutcomes(all, onDisk, api, decode);
    forall i | 0 <= i < |all|
      ensures outcomes[i] == AnalyzeSpec(all[i].1, all[i].0, onDisk, api, decode).outcome
    {
      BatchOutcomeAt(all, onDisk, api, decode, i);
    }
    FirstInterruptIsFirst(outcomes);
  }

  /** `analyze_batch`: analyse every symbol, then keep the results that are not
      exceptions. */
  method AnalyzeBatch(all: Dict<Artifacts>, onDisk: string -> bool, api: Api, decode: Decoder)
    returns (r: Attempt<seq<AnalysisResult>>)
    ensures r == BatchResults(all, onDisk, api, decode)
  {
    var gathered := GatherAnalyses(all, onDisk, api, decode);
    if gathered.Raised? {
      return Raised(gathered.error);
    }
    var validResults := KeepReturned(gathered.value);
    r := Returned(validResults);
  }

  /** `asyncio.gather(*tasks, return_exceptions=True)` over the batch, run one
      symbol after the other: every outcome in key order, unless a task's
      KeyboardInterrupt ends the gather. */
  method GatherAnalyses(all: Dict<Artifacts>, onDisk: string -> bool, api: Api, decode: Decoder)
    returns (r: Attempt<seq<Attempt<AnalysisResult>>>)
    ensures r == GatherOutcome(BatchOutcomes(all, onDisk, api, decode))
  {
    var outcomes := [];
    for i := 0 to |all|
      invariant outcomes == BatchOutcomes(all[..i], onDisk, api, decode)
      invariant FirstInterrupt(outcomes) == None
    {
      var prev := outcomes;
      outcomes := AnalyzeNext(all, i, outcomes, onDisk, api, decode);
      if Interrupts(outcomes[i]) {
        FirstInterruptIsFirst(outcomes);
        InterruptEndsBatch(all, i + 1, onDisk, api, decode);
        return GatherOutcome(outcomes);
      }
      NoInterruptAppend(prev, outcomes);
    }
    assert all[..|all|] == all;
    return Returned(outcomes);
  }

  /** An interrupt among the first `n` tasks decides the whole gather. */
  lemma InterruptEndsBatch(all: Dict<Artifacts>, n: nat, onDisk: string -> bool, api: Api, decode: Decoder)
    requires n <= |all| && FirstInterrupt(BatchOutcomes(all[..n], onDisk, api, decode)).Some?
    ensures GatherOutcome(BatchOutcomes(all, onDisk, api, decode)) == GatherOutcome(BatchOutcomes(all[..n], onDisk, api, decode))
  {
    BatchPrefix(all, n, onDisk, api, decode);
    InterruptInPrefix(BatchOutcomes(all, onDisk, api, decode), n);
  }

  /** The outcomes of a prefix of the batch are a prefix of its outcomes. */
  lemma BatchPrefix(all: Dict<Artifacts>, n: nat, onDisk: string -> bool, api: Api, decode: Decoder)
    requires n <= |all|
    ensures BatchOutcomes(all[..n], onDisk, api, decode) == BatchOutcomes(all, onDisk, api, decode)[..n]
  {
    var front, whole := BatchOutcomes(all[..n], onDisk, api, decode), BatchOutcomes(all, onDisk, api, decode);
    forall i | 0 <= i < n
      ensures front[i] == whole[i]
    {
      BatchOutcomeAt(all[..n], onDisk, api, decode, i);
      BatchOutcomeAt(all, onDisk, api, decode, i);
      assert all[..n][i] == all[i];
    }
  }

  /** One task of the batch: `analyze` on entry `i`, its outcome appended to
      those of the entries before it. */
  method AnalyzeNext(all: Dict<Artifacts>, i: nat, outcomes: seq<Attempt<AnalysisResult>>, onDisk: string -> bool, api: Api, decode: Decoder)
    returns (next: seq<Attempt<AnalysisResult>>)
    requires i < |all| && outcomes == BatchOutcomes(all[..i], onDisk, api, decode)
    ensures next == BatchOutcomes(all[..i + 1], onDisk, api, decode)
    ensures |next| == i + 1 && next[..i] == outcomes
  {
    var run := Analyze(all[i].1, all[i].0, onDisk, api, decode);
    BatchStep(all, i, onDisk, api, decode);
    next := outcomes + [run.outcome];
  }

  lemma BatchStep(all: Dict<Artifacts>, i: nat, onDisk: string -> bool, api: Api, decode: Decoder)
    requires i < |all|
    ensures BatchOutcomes(all[..i + 1], onDisk, api, decode)
      == BatchOutcomes(all[..i], onDisk, api, decode) + [AnalyzeSpec(all[i].1, all[i].0, onDisk, api, decode).outcome]
  {
    assert all[..i + 1][..i] == all[..i];
  }

  /** The filtering loop of `analyze_batch`: exceptions are logged and dropped. */
  method KeepReturned<T>(outcomes: seq<Attempt<T>>) returns (kept: seq<T>)
    ensures kept == Successes(outcomes)
  {
    kept := [];
    for i := 0 to |outcomes|
      invariant kept == Successes(outcomes[..i])
    {
      assert outcomes[..i + 1][..i] == outcomes[..i];
      if outcomes[i].Returned? {
        kept := kept + [outcomes[i].value];
      }
    }
    assert outcomes[..|outcomes|] == outcomes;
  }
}
