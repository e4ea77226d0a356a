/** The report mailer: one summary row and one detailed section per analysed
    symbol, the chart images attached inline under Content-IDs the sections
    refer to, the template's placeholders filled in, and the message handed
    to Gmail's SMTP server. The HTML markup itself is produced by renderers
    passed in as parameters; what is modelled is every choice the markup
    depends on. */
module EmailSender {
  import opened Common
  import opened Text
  import opened Utils
  import opened ClaudeAnalysis

  const SmtpServer: string := "smtp.gmail.com"
  const SmtpPort: nat := 587

  // ---------------------------------------------------------------------------
  // Construction
  // ---------------------------------------------------------------------------

  /** The `email` section of the configuration; each key may be absent (an
      absent section has every key absent). */
  datatype EmailConfig = EmailConfig(recipients: Option<seq<string>>, subjectPrefix: Option<string>)

  const DefaultSubjectPrefix: string := "[Stock Analysis]"

  /** The environment variables holding the Gmail credentials. */
  const CredentialNames: seq<string> := ["GMAIL_ADDRESS", "GMAIL_APP_PASSWORD"]

  /** An `EmailSender`: its settings never change after `__init__`. */
  datatype Sender = Sender(recipients: seq<string>, subjectPrefix: string, address: string, password: string)

  /** `EmailSender.__init__`: the settings fall back to no recipients and the
      default prefix; both credentials must be set and non-empty, otherwise the
      EnvironmentError of `ensure_env_vars` propagates. */
  method NewSender(config: EmailConfig, env: map<string, string>) returns (r: Attempt<Sender>)
    ensures r.Raised? <==> !IsSet(env, "GMAIL_ADDRESS") || !IsSet(env, "GMAIL_APP_PASSWORD")
    ensures r.Raised? ==> r.error == Exc(EnvironmentError, MissingMessage(MissingOf(env, CredentialNames)))
    ensures r.Returned? ==> r.value.recipients == OrElse(config.recipients, [])
    ensures r.Returned? ==> r.value.subjectPrefix == OrElse(config.subjectPrefix, DefaultSubjectPrefix)
    ensures r.Returned? ==> r.value.address == env["GMAIL_ADDRESS"] && r.value.password == env["GMAIL_APP_PASSWORD"]
  {
    var recipients := if config.recipients.Some? then config.recipients.value else [];
    var prefix := if config.subjectPrefix.Some? then config.subjectPrefix.value else DefaultSubjectPrefix;
    var values := EnsureEnvVars(env, CredentialNames);
    assert CredentialNames[0] == "GMAIL_ADDRESS" && CredentialNames[1] == "GMAIL_APP_PASSWORD";
    if values.Raised? {
      return Raised(values.error);
    }
    assert "GMAIL_ADDRESS" in values.value && "GMAIL_APP_PASSWORD" in values.value;
    r := Returned(Sender(recipients, prefix, values.value["GMAIL_ADDRESS"], values.value["GMAIL_APP_PASSWORD"]));
  }

  // ---------------------------------------------------------------------------
  // Colours and badges
  // ---------------------------------------------------------------------------

  const Green: string := "#28a745"
  const Red: string := "#dc3545"
  const Amber: string := "#ffc107"
  const Grey: string := "#6c757d"

  const SignalColors: map<string, string> := map["BUY" := Green, "SELL" := Red, "HOLD" := Amber]
  const ConfidenceColors: map<string, string> := map["HIGH" := Green, "MEDIUM" := Amber, "LOW" := Red]

  /** `_get_signal_color`: the signal's colour, whatever its case; grey for
      any other signal. */
  function SignalColor(signal: string): (color: string)
    ensures color == Green <==> Upper(signal) == "BUY"
    ensures color == Red <==> Upper(signal) == "SELL"
    ensures color == Amber <==> Upper(signal) == "HOLD"
    ensures color == Grey <==> Upper(signal) !in SignalColors
  {
    Get(SignalColors, Upper(signal), Grey)
  }

  /** What `_get_confidence_badge` shows: a coloured label. */
  datatype Badge = Badge(color: string, text: string)

  /** `_get_confidence_badge`: the colour is chosen from the upper-cased
      confidence, but the label shows the confidence exactly as given. */
  function ConfidenceBadge(confidence: string): (b: Badge)
    ensures b.text == confidence
    ensures b.color == Green <==> Upper(confidence) == "HIGH"
    ensures b.color == Amber <==> Upper(confidence) == "MEDIUM"
    ensures b.color == Red <==> Upper(confidence) == "LOW"
    ensures b.color == Grey <==> Upper(confidence) !in ConfidenceColors
  {
    Badge(Get(ConfidenceColors, Upper(confidence), Grey), confidence)
  }

  // ---------------------------------------------------------------------------
  // Recommendation fields
  // ---------------------------------------------------------------------------

  /** The AttributeError of calling `.upper()` on a value that is not a string. */
  const NoUpper: Exc := Exc(AttributeError, "object has no attribute 'upper'")

  /** `rec.get(key, default)` for a field whose default is a string. */
  function Field(rec: map<string, Json>, key: string, default: string): (j: Json)
    ensures key in rec ==> j == rec[key]
    ensures key !in rec ==> j == JStr(default)
  {
    Get(rec, key, JStr(default))
  }

  function Signal(r: AnalysisResult): Json {
    Field(r.recommendation, "signal", "HOLD")
  }

  function Confidence(r: AnalysisResult): Json {
    Field(r.recommendation, "confidence", "LOW")
  }

  // ---------------------------------------------------------------------------
  // _build_summary_table
  // ---------------------------------------------------------------------------

  /** The cells of one row of the summary table. */
  datatype SummaryRow = SummaryRow(symbol: string, trend: string, signal: string, signalColor: string, confidence: Json)

  /** The row of one result. Only the signal goes through `.upper()`, so only a
      signal that is not a string makes the row fail; the confidence is shown
      as it is. */
  function RowOf(r: AnalysisResult): (row: Attempt<SummaryRow>)
    ensures row.Raised? <==> !Signal(r).JStr?
    ensures row.Raised? ==> row.error == NoUpper
    ensures row.Returned? ==> row.value.symbol == r.symbol && row.value.trend == r.primaryTrend
    ensures row.Returned? ==> row.value.signal == (if "signal" in r.recommendation then r.recommendation["signal"].s else "HOLD")
    ensures row.Returned? ==> row.value.signalColor == SignalColor(row.value.signal)
    ensures row.Returned? ==> row.value.confidence == (if "confidence" in r.recommendation then r.recommendation["confidence"] else JStr("LOW"))
  {
    var signal := Signal(r);
    if signal.JStr? then Returned(SummaryRow(r.symbol, r.primaryTrend, signal.s, SignalColor(signal.s), Confidence(r)))
    else Raised(NoUpper)
  }

  /** The rows loop of `_build_summary_table`: exactly one row per result, in
      order, unless some signal cannot be upper-cased. */
  method BuildSummaryRows(results: seq<AnalysisResult>) returns (r: Attempt<seq<SummaryRow>>)
    ensures r.Raised? <==> exists i :: 0 <= i < |results| && RowOf(results[i]).Raised?
    ensures r.Raised? ==> r.error == NoUpper
    ensures r.Returned? ==> |r.value| == |results|
    ensures r.Returned? ==> forall i :: 0 <= i < |results| ==> Returned(r.value[i]) == RowOf(results[i])
  {
    var rows: seq<SummaryRow> := [];
    for i := 0 to |results|
      invariant |rows| == i
      invariant forall k :: 0 <= k < i ==> Returned(rows[k]) == RowOf(results[k])
    {
      var row := RowOf(results[i]);
      if row.Raised? {
        return Raised(row.error);
      }
      rows := rows + [row.value];
    }
    return Returned(rows);
  }

  // ---------------------------------------------------------------------------
  // _build_ticker_section
  // ---------------------------------------------------------------------------

  /** One item of the patterns list. */
  datatype PatternLine = PatternLine(pattern: Json, implication: Json, completion: Json)

  /** The RSI line; `divergence` is None when the divergence suffix is left out. */
  datatype RsiLine = RsiLine(value: Json, zone: Json, divergence: Option<Json>)

  /** Support or resistance: "N/A", or the price list. */
  datatype Levels = NotAvailable | Prices(prices: seq<real>)

  /** Everything the detailed section of one symbol shows. `patterns` is None
      when the "No significant patterns identified" note is shown instead of a
      list, `observations` None when the observations list is left empty, `rsi`
      None when there is no RSI line. `cids` are the Content-IDs of the daily,
      weekly, P&F daily and P&F weekly images the section refers to. */
  datatype TickerSection = TickerSection(
    symbol: string,
    signal: string,
    signalColor: string,
    badge: Badge,
    reasoning: Json,
    primaryTrend: string,
    secondaryTrend: string,
    volume: string,
    rsi: Option<RsiLine>,
    support: Levels,
    resistance: Levels,
    patterns: Option<seq<PatternLine>>,
    observations: Option<seq<string>>,
    summary: string,
    chartUrl: string,
    pnfUrl: string,
    cids: seq<string>)

  function PatternLineOf(p: map<string, Json>): (l: PatternLine)
    ensures l.pattern == Get(p, "pattern", JStr("Unknown"))
    ensures l.implication == Get(p, "implication", JStr("N/A"))
    ensures l.completion == Get(p, "completion", JStr("N/A"))
  {
    PatternLine(Get(p, "pattern", JStr("Unknown")), Get(p, "implication", JStr("N/A")), Get(p, "completion", JStr("N/A")))
  }

  /** The RSI line: none for an empty RSI dict; the divergence shown unless it
      equals the string "NONE" (its default). */
  function RsiLineOf(rsi: map<string, Json>): (l: Option<RsiLine>)
    ensures l.None? <==> rsi == map[]
    ensures l.Some? ==> l.value.value == Get(rsi, "value", JStr("N/A")) && l.value.zone == Get(rsi, "zone", JStr("N/A"))
    ensures l.Some? ==> (l.value.divergence.Some? <==> "divergence" in rsi && rsi["divergence"] != JStr("NONE"))
    ensures l.Some? && l.value.divergence.Some? ==> l.value.divergence.value == rsi["divergence"]
  {
    if |rsi| == 0 then None
    else
      var divergence := Get(rsi, "divergence", JStr("NONE"));
      Some(RsiLine(Get(rsi, "value", JStr("N/A")), Get(rsi, "zone", JStr("N/A")),
                   if divergence != JStr("NONE") then Some(divergence) else None))
  }

  function LevelsOf(levels: seq<real>): (l: Levels)
    ensures l == NotAvailable <==> |levels| == 0
    ensures l.Prices? ==> l.prices == levels
  {
    if |levels| == 0 then NotAvailable else Prices(levels)
  }

  /** `f"chart_{symbol}_{variant}"`: the Content-ID of a chart image. */
  function Cid(symbol: string, variant: string): string {
    "chart_" + symbol + "_" + variant
  }

  /** The Content-IDs of a symbol's four charts, in variant order. */
  function Cids(symbol: string): (c: seq<string>)
    ensures |c| == |Variants| && forall i :: 0 <= i < |Variants| ==> c[i] == Cid(symbol, Variants[i])
  {
    [Cid(symbol, "daily"), Cid(symbol, "weekly"), Cid(symbol, "pnf_daily"), Cid(symbol, "pnf_weekly")]
  }

  /** A Content-ID determines its variant. */
  lemma CidInjective(symbol: string, v1: string, v2: string)
    requires Cid(symbol, v1) == Cid(symbol, v2)
    ensures v1 == v2
  {
    var n := |"chart_" + symbol + "_"|;
    assert Cid(symbol, v1)[n..] == v1;
    assert Cid(symbol, v2)[n..] == v2;
  }

  const ChartPageUrl: string := "https://stockcharts.com/h-sc/ui?s="
  const PnfPageUrl: string := "https://stockcharts.com/freecharts/pnf.php?c="

  /** The section of one result. Both the signal and the confidence go through
      `.upper()`, so a section fails when either is not a string. */
  function SectionOf(r: AnalysisResult): (t: Attempt<TickerSection>)
    ensures t.Raised? <==> !Signal(r).JStr? || !Confidence(r).JStr?
    ensures t.Raised? ==> t.error == NoUpper
    ensures t.Returned? ==> t.value.symbol == r.symbol && t.value.cids == Cids(r.symbol)
    ensures t.Returned? ==> t.value.signal == Signal(r).s && t.value.signalColor == SignalColor(Signal(r).s)
    ensures t.Returned? ==> t.value.badge == ConfidenceBadge(Confidence(r).s)
    ensures t.Returned? ==> t.value.reasoning == Field(r.recommendation, "reasoning", "")
    ensures t.Returned? ==> (t.value.patterns.None? <==> |r.patternsIdentified| == 0)
    ensures t.Returned? && t.value.patterns.Some? ==>
      |t.value.patterns.value| == |r.patternsIdentified|
      && forall i :: 0 <= i < |r.patternsIdentified| ==> t.value.patterns.value[i] == PatternLineOf(r.patternsIdentified[i])
    ensures t.Returned? ==> (t.value.observations.None? <==> |r.keyObservations| == 0)
    ensures t.Returned? && t.value.observations.Some? ==> t.value.observations.value == r.keyObservations
    ensures t.Returned? ==> t.value.rsi == RsiLineOf(r.rsi)
    ensures t.Returned? ==> t.value.support == LevelsOf(r.supportLevels) && t.value.resistance == LevelsOf(r.resistanceLevels)
    ensures t.Returned? ==> t.value.chartUrl == ChartPageUrl + r.symbol && t.value.pnfUrl == PnfPageUrl + r.symbol + ",P"
  {
    var signal, confidence := Signal(r), Confidence(r);
    if !signal.JStr? || !confidence.JStr? then Raised(NoUpper)
    else
      var patterns := if |r.patternsIdentified| == 0 then None
        else Some(seq(|r.patternsIdentified|, i requires 0 <= i < |r.patternsIdentified| => PatternLineOf(r.patternsIdentified[i])));
      var observations := if |r.keyObservations| == 0 then None else Some(r.keyObservations);
      Returned(TickerSection(
        r.symbol, signal.s, SignalColor(signal.s), ConfidenceBadge(confidence.s),
        Field(r.recommendation, "reasoning", ""),
        r.primaryTrend, r.secondaryTrend, r.volumeAssessment,
        RsiLineOf(r.rsi), LevelsOf(r.supportLevels), LevelsOf(r.resistanceLevels),
        patterns, observations, r.summary,
        ChartPageUrl + r.symbol, PnfPageUrl + r.symbol + ",P",
        Cids(r.symbol)))
  }

  /** A result whose section can be built also has a summary row. */
  lemma SectionImpliesRow(r: AnalysisResult)
    requires SectionOf(r).Returned?
    ensures RowOf(r).Returned?
    ensures RowOf(r).value.signal == SectionOf(r).value.signal
    ensures RowOf(r).value.signalColor == SectionOf(r).value.signalColor
  {
  }

  // ---------------------------------------------------------------------------
  // Image attachments
  // ---------------------------------------------------------------------------

  /** An inline image: its `Content-ID`, the file it is read from, and the
      file name in its `Content-Disposition`. */
  datatype Attachment = Attachment(cid: string, path: string, filename: string)

  function AttachmentOf(symbol: string, paths: Artifacts, v: string): Attachment
    requires v in paths
  {
    Attachment(Cid(symbol, v), paths[v], ChartFileName(symbol, v))
  }

  /** The attachment of one variant, or none when it is not usable. */
  function AttachmentIf(symbol: string, paths: Artifacts, onDisk: string -> bool, v: string): seq<Attachment> {
    if Usable(paths, onDisk, v) then [AttachmentOf(symbol, paths, v)] else []
  }

  /** One attachment per usable variant of `vs`, in the order of `vs`. */
  function ChartAttachments(symbol: string, paths: Artifacts, onDisk: string -> bool, vs: seq<string>): seq<Attachment>
  {
    if |vs| == 0 then []
    else AttachmentIf(symbol, paths, onDisk, vs[0]) + ChartAttachments(symbol, paths, onDisk, vs[1..])
  }

  /** The attachments of the four variants, spelled out. */
  lemma AttachmentsOfVariants(symbol: string, paths: Artifacts, onDisk: string -> bool)
    ensures ChartAttachments(symbol, paths, onDisk, Variants)
      == AttachmentIf(symbol, paths, onDisk, "daily") + AttachmentIf(symbol, paths, onDisk, "weekly")
         + AttachmentIf(symbol, paths, onDisk, "pnf_daily") + AttachmentIf(symbol, paths, onDisk, "pnf_weekly")
  {
    var v3: seq<string> := ["pnf_weekly"];
    var v2: seq<string> := ["pnf_daily", "pnf_weekly"];
    var v1: seq<string> := ["weekly", "pnf_daily", "pnf_weekly"];
    assert v3[1..] == [] && v2[1..] == v3 && v1[1..] == v2 && Variants[1..] == v1;
    assert ChartAttachments(symbol, paths, onDisk, v3) == AttachmentIf(symbol, paths, onDisk, "pnf_weekly") + [];
    assert ChartAttachments(symbol, paths, onDisk, v2) == AttachmentIf(symbol, paths, onDisk, "pnf_daily") + ChartAttachments(symbol, paths, onDisk, v3);
    assert ChartAttachments(symbol, paths, onDisk, v1) == AttachmentIf(symbol, paths, onDisk, "weekly") + ChartAttachments(symbol, paths, onDisk, v2);
  }

  /** The four `if` blocks of `send_report` for one symbol's charts. */
  method AttachCharts(symbol: string, paths: Artifacts, onDisk: string -> bool) returns (images: seq<Attachment>)
    ensures images == ChartAttachments(symbol, paths, onDisk, Variants)
  {
    images := [];
    if "daily" in paths && onDisk(paths["daily"]) {
      images := images + [Attachment(Cid(symbol, "daily"), paths["daily"], ChartFileName(symbol, "daily"))];
    }
    assert images == AttachmentIf(symbol, paths, onDisk, "daily");
    if "weekly" in paths && onDisk(paths["weekly"]) {
      images := images + [Attachment(Cid(symbol, "weekly"), paths["weekly"], ChartFileName(symbol, "weekly"))];
    }
    assert images == AttachmentIf(symbol, paths, onDisk, "daily") + AttachmentIf(symbol, paths, onDisk, "weekly");
    if "pnf_daily" in paths && onDisk(paths["pnf_daily"]) {
      images := images + [Attachment(Cid(symbol, "pnf_daily"), paths["pnf_daily"], ChartFileName(symbol, "pnf_daily"))];
    }
    assert images == AttachmentIf(symbol, paths, onDisk, "daily") + AttachmentIf(symbol, paths, onDisk, "weekly")
      + AttachmentIf(symbol, paths, onDisk, "pnf_daily");
    if "pnf_weekly" in paths && onDisk(paths["pnf_weekly"]) {
      images := images + [Attachment(Cid(symbol, "pnf_weekly"), paths["pnf_weekly"], ChartFileName(symbol, "pnf_weekly"))];
    }
    AttachmentsOfVariants(symbol, paths, onDisk);
  }

  /** The attachments are those of the usable variants, one each, in order. */
  lemma {:induction false} AttachmentsOfUsableVariants(symbol: string, paths: Artifacts, onDisk: string -> bool, vs: seq<string>)
    ensures var a, u := ChartAttachments(symbol, paths, onDisk, vs), UsableVariants(paths, onDisk, vs);
      |a| == |u| && forall j :: 0 <= j < |u| ==> a[j] == AttachmentOf(symbol, paths, u[j])
  {
    if |vs| > 0 {
      AttachmentsOfUsableVariants(symbol, paths, onDisk, vs[1..]);
      var a', u' := ChartAttachments(symbol, paths, onDisk, vs[1..]), UsableVariants(paths, onDisk, vs[1..]);
      if Usable(paths, onDisk, vs[0]) {
        var a, u := ChartAttachments(symbol, paths, onDisk, vs), UsableVariants(paths, onDisk, vs);
        assert a == AttachmentIf(symbol, paths, onDisk, vs[0]) + a';
        assert u == [vs[0]] + u';
        forall j | 0 <= j < |u| ensures a[j] == AttachmentOf(symbol, paths, u[j]) {
          if j > 0 {
            assert a[j] == a'[j - 1] && u[j] == u'[j - 1];
          }
        }
      } else {
        assert ChartAttachments(symbol, paths, onDisk, vs) == a';
        assert UsableVariants(paths, onDisk, vs) == u';
      }
    }
  }

  /** A chart is attached exactly when it is present and its file exists. */
  lemma AttachmentSelection(symbol: string, paths: Artifacts, onDisk: string -> bool, v: string)
    requires v in paths
    ensures AttachmentOf(symbol, paths, v) in ChartAttachments(symbol, paths, onDisk, Variants)
      <==> v in Variants && onDisk(paths[v])
  {
    var a, u := ChartAttachments(symbol, paths, onDisk, Variants), UsableVariants(paths, onDisk, Variants);
    AttachmentsOfUsableVariants(symbol, paths, onDisk, Variants);
    if AttachmentOf(symbol, paths, v) in a {
      var j :| 0 <= j < |a| && a[j] == AttachmentOf(symbol, paths, v);
      CidInjective(symbol, u[j], v);
      assert u[j] in u;
    }
    if v in Variants && onDisk(paths[v]) {
      assert v in u;
      var j :| 0 <= j < |u| && u[j] == v;
      assert a[j] == AttachmentOf(symbol, paths, v);
    }
  }

  /** The email attaches exactly the images the analysis request carried, in
      the same order: the j-th attachment is the j-th image of the request. */
  lemma AttachmentsMirrorRequest(symbol: string, paths: Artifacts, onDisk: string -> bool)
    ensures var a, c := ChartAttachments(symbol, paths, onDisk, Variants), ContentSpec(paths, symbol, onDisk);
      |c| == 2 * |a| + 1 && forall j :: 0 <= j < |a| ==> c[2 * j + 1] == Image(a[j].path)
  {
    AttachmentsOfUsableVariants(symbol, paths, onDisk, Variants);
    ContentLayout(paths, symbol, onDisk);
  }

  /** The attachments of one result: none when the symbol has no screenshots. */
  function ResultAttachments(r: AnalysisResult, screenshots: Dict<Artifacts>, onDisk: string -> bool): seq<Attachment>
    requires UniqueKeys(screenshots)
  {
    match Lookup(screenshots, r.symbol)
    case None => []
    case Some(paths) => ChartAttachments(r.symbol, paths, onDisk, Variants)
  }

  /** The attachments of all results, result after result. */
  function AllAttachments(results: seq<AnalysisResult>, screenshots: Dict<Artifacts>, onDisk: string -> bool): seq<Attachment>
    requires UniqueKeys(screenshots)
  {
    if |results| == 0 then []
    else AllAttachments(results[..|results| - 1], screenshots, onDisk) + ResultAttachments(results[|results| - 1], screenshots, onDisk)
  }

  /** One more result adds its own attachments at the end. */
  lemma AllAttachmentsStep(results: seq<AnalysisResult>, screenshots: Dict<Artifacts>, onDisk: string -> bool, i: nat)
    requires UniqueKeys(screenshots) && i < |results|
    ensures AllAttachments(results[..i + 1], screenshots, onDisk)
      == AllAttachments(results[..i], screenshots, onDisk) + ResultAttachments(results[i], screenshots, onDisk)
  {
    assert results[..i + 1][..i] == results[..i];
  }

  /** Every attachment's Content-ID is one of the Content-IDs of the section of
      some result, so every attached image is referenced by the HTML. */
  lemma {:induction false} AttachmentsReferenced(results: seq<AnalysisResult>, screenshots: Dict<Artifacts>, onDisk: string -> bool)
    requires UniqueKeys(screenshots)
    ensures forall a :: a in AllAttachments(results, screenshots, onDisk) ==>
      exists i :: 0 <= i < |results| && a.cid in Cids(results[i].symbol)
  {
    if |results| > 0 {
      var n := |results| - 1;
      var prefix, last := results[..n], results[n];
      AttachmentsReferenced(prefix, screenshots, onDisk);
      ResultAttachmentsReferenced(last, screenshots, onDisk);
      assert AllAttachments(results, screenshots, onDisk)
        == AllAttachments(prefix, screenshots, onDisk) + ResultAttachments(last, screenshots, onDisk);
      forall a | a in AllAttachments(results, screenshots, onDisk)
        ensures exists i :: 0 <= i < |results| && a.cid in Cids(results[i].symbol)
      {
        if a in AllAttachments(prefix, screenshots, onDisk) {
          var i :| 0 <= i < |prefix| && a.cid in Cids(prefix[i].symbol);
          assert prefix[i] == results[i];
        } else {
          assert a.cid in Cids(results[n].symbol);
        }
      }
    }
  }

  /** Every attachment of one result carries one of its symbol's Content-IDs. */
  lemma ResultAttachmentsReferenced(r: AnalysisResult, screenshots: Dict<Artifacts>, onDisk: string -> bool)
    requires UniqueKeys(screenshots)
    ensures forall a :: a in ResultAttachments(r, screenshots, onDisk) ==> a.cid in Cids(r.symbol)
  {
    if Lookup(screenshots, r.symbol).Some? {
      var paths := Lookup(screenshots, r.symbol).value;
      var a', u := ChartAttachments(r.symbol, paths, onDisk, Variants), UsableVariants(paths, onDisk, Variants);
      AttachmentsOfUsableVariants(r.symbol, paths, onDisk, Variants);
      forall a | a in a' ensures a.cid in Cids(r.symbol) {
        var j :| 0 <= j < |a'| && a'[j] == a;
        assert u[j] in u;
      }
    }
  }

  // ---------------------------------------------------------------------------
  // Template substitution
  // ---------------------------------------------------------------------------

  const DatePlaceholder: string := "{{date}}"
  const TablePlaceholder: string := "{{summary_table}}"
  const DetailsPlaceholder: string := "{{detailed_analysis}}"

  /** The three successive `replace` calls of `send_report`. */
  lemma DatePlaceholderForm()
    ensures Placeholder(DatePlaceholder) && DatePlaceholder[2] == 'd' && DatePlaceholder[3] == 'a'
  {
    assert DatePlaceholder[2..] == "date}}";
  }

  lemma TablePlaceholderForm()
    ensures Placeholder(TablePlaceholder) && TablePlaceholder[2] == 's'
  {
    assert TablePlaceholder[2..] == "summary_table}}";
  }

  lemma DetailsPlaceholderForm()
    ensures Placeholder(DetailsPlaceholder) && DetailsPlaceholder[2] == 'd' && DetailsPlaceholder[3] == 'e'
  {
    assert DetailsPlaceholder[2..] == "detailed_analysis}}";
  }

  /** The three chained `replace` calls of `send_report`; the result holds no
      character that is not in the template or in one of the three values. */
  function FillTemplate(template: string, date: string, table: string, details: string): (r: string)
    ensures forall c :: c in r ==> c in template || c in date || c in table || c in details
  {
    var withDate := ReplaceAll(template, DatePlaceholder, date);
    var withTable := ReplaceAll(withDate, TablePlaceholder, table);
    ReplaceAllChars(template, DatePlaceholder, date);
    ReplaceAllChars(withDate, TablePlaceholder, table);
    ReplaceAllChars(withTable, DetailsPlaceholder, details);
    ReplaceAll(withTable, DetailsPlaceholder, details)
  }

  lemma NoBraceConcat(x: string, y: string)
    requires NoBrace(x) && NoBrace(y)
    ensures NoBrace(x + y)
  {
    forall i | 0 <= i < |x + y| ensures (x + y)[i] != '{' {
      if i >= |x| {
        assert (x + y)[i] == y[i - |x|];
      }
    }
  }

  /** Replacing the date: its placeholder occurs once, after the brace-free `a`. */
  lemma DateReplaced(a: string, b: string, c: string, d: string, date: string)
    requires NoBrace(a) && NoBrace(b) && NoBrace(c) && NoBrace(d)
    ensures ReplaceAll(a + DatePlaceholder + (b + TablePlaceholder + (c + DetailsPlaceholder + d)), DatePlaceholder, date)
      == a + date + (b + TablePlaceholder + (c + DetailsPlaceholder + d))
  {
    var P1, P2, P3 := DatePlaceholder, TablePlaceholder, DetailsPlaceholder;
    DatePlaceholderForm();
    TablePlaceholderForm();
    DetailsPlaceholderForm();
    AbsentFromBraceFree(d, P1);
    DiffersAt(P3 + d, P1, 3);
    AbsentAroundPlaceholder(c, P3, d, P1);
    DiffersAt(P2 + (c + P3 + d), P1, 2);
    AbsentAroundPlaceholder(b, P2, c + P3 + d, P1);
    ReplaceAfterBraceFree(a, P1, b + P2 + (c + P3 + d), date);
  }

  /** Replacing the table: its placeholder occurs once, after the brace-free `x`. */
  lemma TableReplaced(x: string, c: string, d: string, table: string)
    requires NoBrace(x) && NoBrace(c) && NoBrace(d)
    ensures ReplaceAll(x + TablePlaceholder + (c + DetailsPlaceholder + d), TablePlaceholder, table)
      == x + table + (c + DetailsPlaceholder + d)
  {
    var P2, P3 := TablePlaceholder, DetailsPlaceholder;
    TablePlaceholderForm();
    DetailsPlaceholderForm();
    AbsentFromBraceFree(d, P2);
    DiffersAt(P3 + d, P2, 2);
    AbsentAroundPlaceholder(c, P3, d, P2);
    ReplaceAfterBraceFree(x, P2, c + P3 + d, table);
  }

  /** A template holding each placeholder once, in the order date, summary
      table, detailed analysis, and no other brace (the shape of the default
      template) has each placeholder replaced by its text, provided the date and
      the table bring in no brace of their own. */
  lemma FillTemplateReplacesPlaceholders(a: string, b: string, c: string, d: string, date: string, table: string, details: string)
    requires NoBrace(a) && NoBrace(b) && NoBrace(c) && NoBrace(d) && NoBrace(date) && NoBrace(table)
    ensures FillTemplate(a + DatePlaceholder + b + TablePlaceholder + c + DetailsPlaceholder + d, date, table, details)
      == a + date + b + table + c + details + d
  {
    DateStep(a, b, c, d, date);
    TableStep(a, b, c, d, date, table);
    DetailsStep(a, b, c, d, date, table, details);
  }

  /** Regrouping a seven-part concatenation. */
  lemma Regroup(a: string, p: string, b: string, q: string, c: string, r: string, d: string)
    ensures a + p + b + q + c + r + d == a + p + (b + q + (c + r + d))
    ensures a + p + b + q + c + r + d == (a + p + b) + q + (c + r + d)
  {
  }

  lemma DateStep(a: string, b: string, c: string, d: string, date: string)
    requires NoBrace(a) && NoBrace(b) && NoBrace(c) && NoBrace(d)
    ensures ReplaceAll(a + DatePlaceholder + b + TablePlaceholder + c + DetailsPlaceholder + d, DatePlaceholder, date)
      == a + date + b + TablePlaceholder + c + DetailsPlaceholder + d
  {
    var P1, P2, P3 := DatePlaceholder, TablePlaceholder, DetailsPlaceholder;
    calc {
      ReplaceAll(a + P1 + b + P2 + c + P3 + d, P1, date);
      { Regroup(a, P1, b, P2, c, P3, d); }
      ReplaceAll(a + P1 + (b + P2 + (c + P3 + d)), P1, date);
      { DateReplaced(a, b, c, d, date); }
      a + date + (b + P2 + (c + P3 + d));
      { Regroup(a, date, b, P2, c, P3, d); }
      a + date + b + P2 + c + P3 + d;
    }
  }

  lemma TableStep(a: string, b: string, c: string, d: string, date: string, table: string)
    requires NoBrace(a) && NoBrace(b) && NoBrace(c) && NoBrace(d) && NoBrace(date)
    ensures ReplaceAll(a + date + b + TablePlaceholder + c + DetailsPlaceholder + d, TablePlaceholder, table)
      == a + date + b + table + c + DetailsPlaceholder + d
  {
    var P2, P3 := TablePlaceholder, DetailsPlaceholder;
    var x := a + date + b;
    NoBraceConcat(a, date);
    NoBraceConcat(a + date, b);
    calc {
      ReplaceAll(a + date + b + P2 + c + P3 + d, P2, table);
      { Regroup(a, date, b, P2, c, P3, d); }
      ReplaceAll(x + P2 + (c + P3 + d), P2, table);
      { TableReplaced(x, c, d, table); }
      x + table + (c + P3 + d);
      { Regroup(a, date, b, table, c, P3, d); }
      a + date + b + table + c + P3 + d;
    }
  }

  lemma DetailsStep(a: string, b: string, c: string, d: string, date: string, table: string, details: string)
    requires NoBrace(a) && NoBrace(b) && NoBrace(c) && NoBrace(d) && NoBrace(date) && NoBrace(table)
    ensures ReplaceAll(a + date + b + table + c + DetailsPlaceholder + d, DetailsPlaceholder, details)
      == a + date + b + table + c + details + d
  {
    var x := a + date + b + table + c;
    NoBraceConcat(a, date);
    NoBraceConcat(a + date, b);
    NoBraceConcat(a + date + b, table);
    NoBraceConcat(a + date + b + table, c);
    DetailsPlaceholderForm();
    AbsentFromBraceFree(d, DetailsPlaceholder);
    ReplaceAfterBraceFree(x, DetailsPlaceholder, d, details);
  }

  // ---------------------------------------------------------------------------
  // send_report
  // ---------------------------------------------------------------------------

  /** No result holds a signal or confidence that `.upper()` fails on. */
  predicate Renderable(results: seq<AnalysisResult>) {
    forall i :: 0 <= i < |results| ==> Printable(results[i])
  }

  /** The signal and the confidence of `r` are strings. */
  predicate Printable(r: AnalysisResult) {
    Signal(r).JStr? && Confidence(r).JStr?
  }

  /** The summary rows of renderable results. */
  function Rows(results: seq<AnalysisResult>): (rows: seq<SummaryRow>)
    requires Renderable(results)
    ensures |rows| == |results| && forall i :: 0 <= i < |results| ==> Returned(rows[i]) == RowOf(results[i])
  {
    seq(|results|, i requires 0 <= i < |results| => SectionImpliesRow(results[i]); RowOf(results[i]).value)
  }

  /** The rendered detailed sections of renderable results, in order. */
  function SectionsHtml(results: seq<AnalysisResult>, renderSection: TickerSection -> string): (html: seq<string>)
    requires Renderable(results)
    ensures |html| == |results|
  {
    MapSeq(results, Rendered(renderSection))
  }

  /** The rendering of one result's section (its text is never used for a result
      that cannot be rendered). */
  function Rendered(renderSection: TickerSection -> string): AnalysisResult -> string {
    (r: AnalysisResult) => if SectionOf(r).Returned? then renderSection(SectionOf(r).value) else ""
  }

  /** Section `i` is the rendering of result `i`. */
  lemma SectionsHtmlAt(results: seq<AnalysisResult>, renderSection: TickerSection -> string, i: nat)
    requires Renderable(results) && i < |results|
    ensures SectionOf(results[i]).Returned?
    ensures SectionsHtml(results, renderSection)[i] == renderSection(SectionOf(results[i]).value)
  {
    MapSeqAt(results, Rendered(renderSection), i);
  }

  /** The message `send_report` builds: headers, HTML body and inline images. */
  datatype Report = Report(
    subject: string,
    sender: string,
    to: string,
    recipients: seq<string>,
    html: string,
    attachments: seq<Attachment>)

  /** The subject line: the prefix, then the report's date. */
  function Subject(prefix: string, today: string): (r: string)
    ensures |r| == |prefix| + |" Daily Report - "| + |today|
    ensures r[..|prefix|] == prefix && r[|r| - |today|..] == today
  {
    prefix + " Daily Report - " + today
  }

  /** The message for renderable results. `today` is the date in the subject,
      `stamp` the date and time shown in the body; `renderTable` and
      `renderSection` produce the markup of the summary table and of one
      section. */
  function ReportOf(sender: Sender, results: seq<AnalysisResult>, screenshots: Dict<Artifacts>, onDisk: string -> bool,
                    template: string, today: string, stamp: string,
                    renderTable: seq<SummaryRow> -> string, renderSection: TickerSection -> string): (r: Report)
    requires UniqueKeys(screenshots) && Renderable(results)
    ensures |r.subject| == |sender.subjectPrefix| + |" Daily Report - "| + |today|
    ensures r.subject[..|sender.subjectPrefix|] == sender.subjectPrefix && r.subject[|r.subject| - |today|..] == today
    ensures r.sender == sender.address && r.recipients == sender.recipients
  {
    var details := Join(SectionsHtml(results, renderSection), "\n");
    Report(Subject(sender.subjectPrefix, today), sender.address, Join(sender.recipients, ", "), sender.recipients,
           FillTemplate(template, stamp, renderTable(Rows(results)), details),
           AllAttachments(results, screenshots, onDisk))
  }

  /** The images of one result: its charts when `screenshots` has its symbol. */
  method ImagesOf(r: AnalysisResult, screenshots: Dict<Artifacts>, onDisk: string -> bool) returns (images: seq<Attachment>)
    requires UniqueKeys(screenshots)
    ensures images == ResultAttachments(r, screenshots, onDisk)
  {
    images := [];
    match Lookup(screenshots, r.symbol) {
      case Some(paths) =>
        images := AttachCharts(r.symbol, paths, onDisk);
      case None =>
    }
  }

  /** One more renderable result adds its section at the end. */
  lemma SectionsStep(results: seq<AnalysisResult>, renderSection: TickerSection -> string, i: nat)
    requires i < |results| && Renderable(results[..i]) && SectionOf(results[i]).Returned?
    ensures Renderable(results[..i + 1])
    ensures SectionsHtml(results[..i + 1], renderSection)
      == SectionsHtml(results[..i], renderSection) + [renderSection(SectionOf(results[i]).value)]
  {
    var longer := results[..i + 1];
    forall k | 0 <= k < i + 1 ensures Printable(longer[k]) {
      if k < i {
        assert longer[k] == results[..i][k];
      }
    }
    MapSeqStep(results, Rendered(renderSection), i);
  }

  /** The loop of `send_report`: a section per result and the images of its
      charts, result after result. */
  method AssembleSections(results: seq<AnalysisResult>, screenshots: Dict<Artifacts>, onDisk: string -> bool,
                          renderSection: TickerSection -> string)
    returns (r: Attempt<seq<string>>, images: seq<Attachment>)
    requires UniqueKeys(screenshots)
    ensures r.Raised? <==> !Renderable(results)
    ensures r.Raised? ==> r.error == NoUpper
    ensures r.Returned? ==> r.value == SectionsHtml(results, renderSection)
    ensures r.Returned? ==> images == AllAttachments(results, screenshots, onDisk)
  {
    var detailed: seq<string> := [];
    images := [];
    for i := 0 to |results|
      invariant Renderable(results[..i]) && detailed == SectionsHtml(results[..i], renderSection)
      invariant images == AllAttachments(results[..i], screenshots, onDisk)
    {
      var section := SectionOf(results[i]);
      if section.Raised? {
        return Raised(section.error), images;
      }
      SectionsStep(results, renderSection, i);
      detailed := detailed + [renderSection(section.value)];
      var chartImages := ImagesOf(results[i], screenshots, onDisk);
      AllAttachmentsStep(results, screenshots, onDisk, i);
      images := images + chartImages;
    }
    assert results[..|results|] == results;
    return Returned(detailed), images;
  }

  /** `send_report`: nothing is built or sent without results or recipients;
      a result that cannot be rendered raises AttributeError before anything
      is sent; otherwise the message is handed to SMTP, and whatever SMTP
      raises (authentication or other) is re-raised unchanged. `message` is the
      message handed to SMTP, if any. */
  method SendReport(sender: Sender, results: seq<AnalysisResult>, screenshots: Dict<Artifacts>, onDisk: string -> bool,
                    template: string, today: string, stamp: string,
                    renderTable: seq<SummaryRow> -> string, renderSection: TickerSection -> string,
                    smtp: Report -> Option<Exc>)
    returns (message: Option<Report>, raised: Option<Exc>)
    requires UniqueKeys(screenshots)
    ensures |results| == 0 || |sender.recipients| == 0 ==> message == None && raised == None
    ensures |results| > 0 && |sender.recipients| > 0 && !Renderable(results) ==> message == None && raised == Some(NoUpper)
    ensures |results| > 0 && |sender.recipients| > 0 && Renderable(results) ==>
      var report := ReportOf(sender, results, screenshots, onDisk, template, today, stamp, renderTable, renderSection);
      message == Some(report) && raised == smtp(report)
  {
    if |results| == 0 {
      return None, None;
    }
    if |sender.recipients| == 0 {
      return None, None;
    }
    var subject := Subject(sender.subjectPrefix, today);
    var to := Join(sender.recipients, ", ");
    var rows := BuildSummaryRows(results);
    if rows.Raised? {
      ghost var i :| 0 <= i < |results| && RowOf(results[i]).Raised?;
      assert !SectionOf(results[i]).Returned?;
      return None, Some(rows.error);
    }
    var table := renderTable(rows.value);
    var detailed, images := AssembleSections(results, screenshots, onDisk, renderSection);
    if detailed.Raised? {
      return None, Some(detailed.error);
    }
    assert rows.value == Rows(results);
    var html := ReplaceAll(template, DatePlaceholder, stamp);
    html := ReplaceAll(html, TablePlaceholder, table);
    html := ReplaceAll(html, DetailsPlaceholder, Join(detailed.value, "\n"));
    var report := Report(subject, sender.address, to, sender.recipients, html, images);
    message := Some(report);
    raised := smtp(report);
  }

  /** Every image of the message is referenced by a Content-ID of the section
      of some result. */
  lemma ReportImagesReferenced(sender: Sender, results: seq<AnalysisResult>, screenshots: Dict<Artifacts>, onDisk: string -> bool,
                               template: string, today: string, stamp: string,
                               renderTable: seq<SummaryRow> -> string, renderSection: TickerSection -> string)
    requires UniqueKeys(screenshots) && Renderable(results)
    ensures forall a :: (a in ReportOf(sender, results, screenshots, onDisk, template, today, stamp, renderTable, renderSection).attachments
      ==> exists i :: 0 <= i < |results| && a.cid in SectionOf(results[i]).value.cids)
  {
    AttachmentsReferenced(results, screenshots, onDisk);
  }

  /** On a template of the default's shape, the body of the message is the
      template with the date stamp, the table and the sections joined by
      newlines in place of the three placeholders. */
  lemma ReportBody(sender: Sender, results: seq<AnalysisResult>, screenshots: Dict<Artifacts>, onDisk: string -> bool,
                   a: string, b: string, c: string, d: string, today: string, stamp: string,
                   renderTable: seq<SummaryRow> -> string, renderSection: TickerSection -> string)
    requires UniqueKeys(screenshots) && Renderable(results)
    requires NoBrace(a) && NoBrace(b) && NoBrace(c) && NoBrace(d) && NoBrace(stamp) && NoBrace(renderTable(Rows(results)))
    ensures var template := a + DatePlaceholder + b + TablePlaceholder + c + DetailsPlaceholder + d;
      ReportOf(sender, results, screenshots, onDisk, template, today, stamp, renderTable, renderSection).html
      == a + stamp + b + renderTable(Rows(results)) + c + Join(SectionsHtml(results, renderSection), "\n") + d
  {
    FillTemplateReplacesPlaceholders(a, b, c, d, stamp, renderTable(Rows(results)), Join(SectionsHtml(results, renderSection), "\n"));
  }
}
