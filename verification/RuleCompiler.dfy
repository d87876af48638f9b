/**
 The SLO rule compiler: an SLO, an SLI and a base window become a table of recording rules per
 window and, when enabled, four two-window burn-rate alerts.  `Compile` says what the table is;
 `SetupRules` is the procedure that fills it through keyed maps.
 */
module RuleCompiler {
  import opened Text
  import opened Selectors
  import opened FixedPoint
  import opened Api

  // ----- Expressions and rules -----

  /** `record{matchers}` in an expression, the matchers as printed. */
  datatype Ref = Ref(record: string, matchers: string)

  /** The PromQL fragment the compiler emits. */
  datatype Expr =
    | Zero
    | Constant(text: string)
    | Aggregate(aggregation: string, metric: string, window: string, grouping: string)
    | Difference(minuend: string, subtrahend: string)
    | CappedRatio(numerator: Ref, denominator: Ref)
    | Complement(of: Ref)
    | Quotient(dividend: Ref, divisor: string)
    | BothAbove(short: Ref, shortLimit: string, long: Ref, longLimit: string)

  function RenderRef(r: Ref): string
  {
    r.record + "{" + r.matchers + "}"
  }

  function Render(e: Expr): string
  {
    match e
    case Zero => "0"
    case Constant(text) => "vector(" + text + ")"
    case Aggregate(aggregation, metric, window, grouping) =>
      "sum(" + aggregation + "(" + metric + "[" + window + "])) by (" + grouping + ")"
    case Difference(a, b) => a + " - " + b
    case CappedRatio(n, d) => "clamp_max(" + RenderRef(n) + " / " + RenderRef(d) + ", 1)"
    case Complement(r) => "1 - " + RenderRef(r)
    case Quotient(r, divisor) => RenderRef(r) + " / " + divisor
    case BothAbove(s, sl, l, ll) => "(" + RenderRef(s) + " > " + sl + " and " + RenderRef(l) + " > " + ll + ")"
  }

  datatype Rule = Rule(
    record: string, alert: string, expr: Expr, duration: Option<string>, labels: Labels, annotations: Labels)

  datatype RuleGroup = RuleGroup(name: string, rules: seq<Rule>)

  type PrometheusRule = Object<seq<RuleGroup>, ()>

  const NO_RULE := Rule("", "", Zero, None, map[], map[])

  function Recording(record: string, expr: Expr, labels: Labels): Rule
  {
    Rule(record, "", expr, None, labels, map[])
  }

  function Reference(rule: Rule): Ref
  {
    Ref(rule.record, PrintSelector(rule.labels))
  }

  predicate IsValidRule(rule: Rule)
  {
    rule.record != "" && Render(rule.expr) != ""
  }

  // ----- Constants -----

  const ALERT_WINDOWS := ["5m", "30m", "1h", "2h", "6h", "24h", "3d"]

  predicate IsAlertWindow(w: string)
  {
    w in ALERT_WINDOWS
  }

  const LABEL_PREFIX := "label.osko.dev/"
  const GROUPING := "namespace, service, sli_name, slo_name"
  const TARGET_RECORD := "osko_slo_target"
  const TOTAL_RECORD := "osko_sli_total"
  const GOOD_RECORD := "osko_sli_good"
  const BAD_RECORD := "osko_sli_bad"
  const MEASUREMENT_RECORD := "osko_sli_measurement"
  const RATIO_RECORD := "osko_error_budget_ratio"
  const BURN_RATE_RECORD := "osko_error_budget_burn_rate"

  // ----- Targets -----

  datatype CompileError = UnsupportedSource | NoObjectives | BadTarget | InvalidTarget

  datatype Result<+T> = Success(value: T) | Failure(error: CompileError)

  predicate ValidTarget(target: real)
  {
    0.0 < target < 1.0
  }

  // ----- Metric sources -----

  /**
   Go's lower-casing as far as ASCII words can tell: besides the ASCII capitals, only the dotted
   capital I and the Kelvin sign map to an ASCII letter.
   */
  function LowerChar(c: char): char
  {
    if 'A' <= c <= 'Z' then (c as int + 32) as char
    else if c == '\U{0130}' then 'i'
    else if c == '\U{212A}' then 'k'
    else c
  }

  function ToLower(s: string): string
  {
    seq(|s|, i requires 0 <= i < |s| => LowerChar(s[i]))
  }

  function SourceKind(spec: SliSpec): string
  {
    if spec.ratio.total.kind != "" then spec.ratio.total.kind else spec.threshold.kind
  }

  predicate IsPrometheusSource(spec: SliSpec)
  {
    ToLower(SourceKind(spec)) in ["prometheus", "mimir", "cortex", "victoriametrics", "thanos"]
  }

  // ----- Labels -----

  function UserKeys(labels: Labels): (keys: set<string>)
    ensures forall u :: u in keys <==> LABEL_PREFIX + u in labels
  {
    var keys := set k | k in labels && HasPrefix(k, LABEL_PREFIX) :: k[|LABEL_PREFIX|..];
    assert forall k | k in labels && HasPrefix(k, LABEL_PREFIX) :: LABEL_PREFIX + k[|LABEL_PREFIX|..] == k;
    assert forall u | LABEL_PREFIX + u in labels ::
        HasPrefix(LABEL_PREFIX + u, LABEL_PREFIX) && (LABEL_PREFIX + u)[|LABEL_PREFIX|..] == u;
    keys
  }

  /** The labels an SLO's owner asked for through prefixed object labels. */
  function UserLabels(labels: Labels): Labels
  {
    map u | u in UserKeys(labels) :: labels[LABEL_PREFIX + u]
  }

  lemma PrefixSplits(k: string)
    requires HasPrefix(k, LABEL_PREFIX)
    ensures LABEL_PREFIX + k[|LABEL_PREFIX|..] == k
  {
  }

  lemma PrefixJoins(u: string, k: string)
    requires LABEL_PREFIX + u == k
    ensures HasPrefix(k, LABEL_PREFIX) && k[|LABEL_PREFIX|..] == u
  {
  }

  /** Copies the relevant labels one by one, in any order. */
  method CreateUserDefinedRuleLabels(labels: Labels) returns (relevant: Labels)
    ensures relevant == UserLabels(labels)
  {
    relevant := map[];
    var left := labels.Keys;
    while left != {}
      invariant left <= labels.Keys
      invariant forall u :: u in relevant <==> LABEL_PREFIX + u in labels && LABEL_PREFIX + u !in left
      invariant forall u | u in relevant :: relevant[u] == labels[LABEL_PREFIX + u]
      decreases |left|
    {
      var key :| key in left;
      left := left - {key};
      if HasPrefix(key, LABEL_PREFIX) {
        PrefixSplits(key);
        relevant := relevant[key[|LABEL_PREFIX|..] := labels[key]];
      }
      forall u | LABEL_PREFIX + u == key
        ensures HasPrefix(key, LABEL_PREFIX) && key[|LABEL_PREFIX|..] == u
      {
        PrefixJoins(u, key);
      }
    }
  }

  // ----- The rule set -----

  /** Rule kinds, the keys of the table the compiler fills. */
  datatype Kind = Total | Good | Bad | Measurement | Ratio | BurnRate

  const KINDS := {Total, Good, Bad, Measurement, Ratio, BurnRate}

  lemma EveryKind()
    ensures forall kind: Kind :: kind in KINDS
  {
    forall kind: Kind ensures kind in KINDS {
      match kind
      case Total =>
      case Bad =>
      case Good =>
      case Measurement =>
      case Ratio =>
      case BurnRate =>
    }
  }

  /** The compiler's table of tables: per kind, the rule of each window. */
  function AsTable(
    total: map<string, Rule>, good: map<string, Rule>, bad: map<string, Rule>, measurement: map<string, Rule>,
    ratio: map<string, Rule>, burnRate: map<string, Rule>): (t: map<Kind, map<string, Rule>>)
    ensures forall kind :: kind in t
    ensures t[Total] == total && t[Good] == good && t[Bad] == bad
    ensures t[Measurement] == measurement && t[Ratio] == ratio && t[BurnRate] == burnRate
  {
    EveryKind();
    var t := map[
      Total := total, Good := good, Bad := bad, Measurement := measurement, Ratio := ratio, BurnRate := burnRate];
    assert forall kind: Kind :: kind in KINDS ==> kind in t;
    t
  }

  /** The most recent burn-rate rule of every window label. */
  function BurnRateTable(rules: seq<Rule>): map<string, Rule>
  {
    if rules == [] then map[]
    else
      var table := BurnRateTable(rules[..|rules| - 1]);
      var rule := rules[|rules| - 1];
      if "window" in rule.labels && rule.labels["window"] != "" then table[rule.labels["window"] := rule] else table
  }

  method GetBurnRateWindows(burnRates: seq<Rule>) returns (windows: map<string, Rule>)
    ensures windows == BurnRateTable(burnRates)
  {
    windows := map[];
    for i := 0 to |burnRates|
      invariant windows == BurnRateTable(burnRates[..i])
    {
      assert burnRates[..i + 1][..i] == burnRates[..i];
      var br := burnRates[i];
      if "window" in br.labels && br.labels["window"] != "" {
        windows := windows[br.labels["window"] := br];
      }
    }
    assert burnRates[..|burnRates|] == burnRates;
  }

  method HasWindows(windows: map<string, Rule>, required: seq<string>) returns (all: bool)
    ensures all <==> forall w | w in required :: w in windows
  {
    for i := 0 to |required|
      invariant forall w | w in required[..i] :: w in windows
    {
      if required[i] !in windows { return false; }
    }
    return true;
  }

  /** The entries of a column for a list of windows, absent ones skipped. */
  function Picked(column: map<string, Rule>, windows: seq<string>): seq<Rule>
  {
    if windows == [] then []
    else
      var w := windows[|windows| - 1];
      Picked(column, windows[..|windows| - 1]) + if w in column then [column[w]] else []
  }

  /** One alert: its severity, window pair and threshold. */
  datatype AlertSpec = AlertSpec(severity: Severity, short: string, long: string)

  const ALERTS := [
    AlertSpec(PageCritical, "5m", "1h"), AlertSpec(PageHigh, "30m", "6h"),
    AlertSpec(TicketHigh, "2h", "24h"), AlertSpec(TicketMedium, "6h", "3d")]

  function SeverityName(s: Severity): string
  {
    match s
    case PageCritical => "page_critical"
    case PageHigh => "page_high"
    case TicketHigh => "ticket_high"
    case TicketMedium => "ticket_medium"
  }

  function Threshold(cfg: Config, s: Severity): real
  {
    match s
    case PageCritical => cfg.pageShortWindow
    case PageHigh => cfg.pageLongWindow
    case TicketHigh => cfg.ticketShortWindow
    case TicketMedium => cfg.ticketLongWindow
  }

  datatype MonitoringRuleSet = MonitoringRuleSet(slo: Slo, sli: Sli, baseWindow: string)
  {
    function BaseLabels(window: string): Labels
    {
      map[
        "namespace" := slo.meta.namespace,
        "service" := slo.spec.service,
        "sli_name" := sli.meta.name,
        "slo_name" := slo.meta.name,
        "window" := window]
    }

    function RuleLabels(window: string): Labels
    {
      BaseLabels(window) + UserLabels(slo.meta.labels)
    }

    function RecordingRule(metric: string, recordName: string, window: string): Rule
    {
      var aggregation := if sli.spec.ratio.counter then "rate" else "avg_over_time";
      Recording("osko_" + recordName, Aggregate(aggregation, metric, window, GROUPING), RuleLabels(window))
    }

    function MeasurementOf(total: Rule, good: Rule, window: string): Rule
    {
      Recording(MEASUREMENT_RECORD, CappedRatio(Reference(good), Reference(total)), RuleLabels(window))
    }

    function RatioOf(measurement: Rule, window: string): Rule
    {
      Recording(RATIO_RECORD, Complement(Reference(measurement)), RuleLabels(window))
    }

    function BurnRateOf(ratio: Rule, budget: real, window: string): Rule
    {
      Recording(BURN_RATE_RECORD, Quotient(Reference(ratio), PrintFixed(budget, 10)), RuleLabels(window))
    }

    function HasGoodQuery(): bool
    {
      sli.spec.ratio.good.query != ""
    }

    function TargetRule(): Rule
      requires slo.spec.targets != []
    {
      Recording(TARGET_RECORD, Constant(slo.spec.targets[0]), RuleLabels(baseWindow))
    }

    function TotalRule(window: string): Rule
    {
      RecordingRule(sli.spec.ratio.total.query, "sli_total", window)
    }

    function BadRule(window: string): Rule
    {
      RecordingRule(sli.spec.ratio.bad.query, "sli_bad", window)
    }

    function GoodRule(window: string): Rule
    {
      if HasGoodQuery() then RecordingRule(sli.spec.ratio.good.query, "sli_good", window)
      else Recording(GOOD_RECORD, Difference(TotalRule(window).record, BadRule(window).record), RuleLabels(window))
    }

    function MeasurementRule(window: string): Rule
    {
      MeasurementOf(TotalRule(window), GoodRule(window), window)
    }

    function RatioRule(window: string): Rule
    {
      RatioOf(MeasurementRule(window), window)
    }

    function BurnRateRule(window: string, budget: real): Rule
    {
      BurnRateOf(RatioRule(window), budget, window)
    }

    /** The rule of one kind for one window. */
    function RuleOf(kind: Kind, window: string, budget: real): Rule
    {
      match kind
      case Total => TotalRule(window)
      case Bad => BadRule(window)
      case Good => GoodRule(window)
      case Measurement => MeasurementRule(window)
      case Ratio => RatioRule(window)
      case BurnRate => BurnRateRule(window, budget)
    }

    function ExtendedWindow(): string
    {
      if slo.spec.timeWindows != [] && slo.spec.timeWindows[0] != "" then slo.spec.timeWindows[0] else "28d"
    }

    function Windows(): seq<string>
    {
      Unique([baseWindow, ExtendedWindow()] + ALERT_WINDOWS)
    }

    function Row(kind: Kind, windows: seq<string>, budget: real): seq<Rule>
    {
      if Skipped(kind) then []
      else seq(|windows|, i requires 0 <= i < |windows| => RuleOf(kind, windows[i], budget))
    }

    /** The burn-rate rules of the seven alerting windows, in table order. */
    function AlertingBurnRates(windows: seq<string>, budget: real): seq<Rule>
    {
      if windows == [] then []
      else
        var w := windows[|windows| - 1];
        AlertingBurnRates(windows[..|windows| - 1], budget)
        + if IsAlertWindow(w) then [BurnRateRule(w, budget)] else []
    }

    function AlertingTool(cfg: Config): string
    {
      var chosen := Get(slo.meta.annotations, "osko.dev/alertingTool");
      if chosen == "" then cfg.alertingTool else chosen
    }

    function TwoWindowAlert(cfg: Config, short: Rule, long: Rule, severity: Severity): Rule
    {
      var limit := PrintFixed(Threshold(cfg, severity), 1);
      var shortWindow, longWindow := Get(short.labels, "window"), Get(long.labels, "window");
      Rule(
        "",
        slo.meta.name + "_alert_" + SeverityName(severity),
        BothAbove(Reference(short), limit, Reference(long), limit),
        Some("5m"),
        map[
          "severity" := cfg.severity(AlertingTool(cfg), severity),
          "slo_name" := slo.meta.name,
          "sli_name" := sli.meta.name,
          "short_window" := shortWindow,
          "long_window" := longWindow],
        map[
          "summary" := "SLO Burn Rate Alert",
          "description" :=
            "The burn rate of SLO " + slo.meta.name
            + " is consuming error budget faster than acceptable. Short window: " + shortWindow
            + ", Long window: " + longWindow])
    }

    /** A two-window alert, or the empty rule when a window has no usable burn-rate rule. */
    function AlertRule(cfg: Config, table: map<string, Rule>, alert: AlertSpec): Rule
    {
      var short := if alert.short in table then table[alert.short] else NO_RULE;
      var long := if alert.long in table then table[alert.long] else NO_RULE;
      if IsValidRule(short) && IsValidRule(long) then TwoWindowAlert(cfg, short, long, alert.severity) else NO_RULE
    }

    /** The alerts whose two windows are both in the table, in the order of `alerts`. */
    function AlertRules(cfg: Config, table: map<string, Rule>, alerts: seq<AlertSpec>): seq<Rule>
    {
      if alerts == [] then []
      else
        var last := alerts[|alerts| - 1];
        AlertRules(cfg, table, alerts[..|alerts| - 1])
        + if last.short in table && last.long in table then [AlertRule(cfg, table, last)] else []
    }

    predicate MagicAlerting()
    {
      Get(slo.meta.annotations, "osko.dev/magicAlerting") == "true"
    }

    function AlertGroup(cfg: Config, budget: real): RuleGroup
    {
      RuleGroup(slo.meta.name + "_slo_alert",
                AlertRules(cfg, BurnRateTable(AlertingBurnRates(Windows(), budget)), ALERTS))
    }

    function RecordingGroups(budget: real): seq<RuleGroup>
      requires slo.spec.targets != []
    {
      var ws := Windows();
      [
        RuleGroup(slo.meta.name + "_slo_target", [TargetRule()]),
        RuleGroup(slo.meta.name + "_sli_good", Row(Good, ws, budget)),
        RuleGroup(slo.meta.name + "_sli_total", Row(Total, ws, budget)),
        RuleGroup(slo.meta.name + "_sli_measurement", Row(Measurement, ws, budget)),
        RuleGroup(slo.meta.name + "_error_budget_ratio", Row(Ratio, ws, budget)),
        RuleGroup(slo.meta.name + "_burn_rate", Row(BurnRate, ws, budget))]
    }

    /** Why compilation fails, or the target it works with. */
    function CheckedTarget(cfg: Config): (r: Result<real>)
      ensures r.Success? ==> slo.spec.targets != [] && ValidTarget(r.value)
    {
      if !IsPrometheusSource(sli.spec) then Failure(UnsupportedSource)
      else if slo.spec.targets == [] then Failure(NoObjectives)
      else
        match cfg.parseFloat(slo.spec.targets[0])
        case None => Failure(BadTarget)
        case Some(t) => if ValidTarget(t) then Success(t) else Failure(InvalidTarget)
    }

    function Compile(cfg: Config): Result<seq<RuleGroup>>
    {
      match CheckedTarget(cfg)
      case Failure(e) => Failure(e)
      case Success(target) => Success(Groups(cfg, 1.0 - target))
    }

    /** The emitted groups for an error budget. */
    function Groups(cfg: Config, budget: real): seq<RuleGroup>
      requires slo.spec.targets != []
    {
      RecordingGroups(budget) + if MagicAlerting() then [AlertGroup(cfg, budget)] else []
    }

    // ----- The procedure -----

    /** The kinds that get no entries: bad rules when there is a good query. */
    predicate Skipped(kind: Kind)
    {
      kind == Bad && HasGoodQuery()
    }

    /** `column` holds the rules of one kind for exactly these windows. */
    ghost predicate Holds(column: map<string, Rule>, kind: Kind, windows: seq<string>, budget: real)
    {
      && (forall w :: w in column <==> w in windows && !Skipped(kind))
      && (forall w | w in column :: column[w] == RuleOf(kind, w, budget))
    }

    ghost predicate Filled(rules: map<Kind, map<string, Rule>>, windows: seq<string>, budget: real)
    {
      forall kind :: kind in rules && Holds(rules[kind], kind, windows, budget)
    }

    /** A column with the entry for one more window. */
    ghost function Extended(column: map<string, Rule>, kind: Kind, w: string, budget: real): map<string, Rule>
    {
      if Skipped(kind) then column else column[w := RuleOf(kind, w, budget)]
    }

    lemma HoldsMore(column: map<string, Rule>, kind: Kind, windows: seq<string>, w: string, budget: real)
      requires Holds(column, kind, windows, budget)
      ensures Holds(Extended(column, kind, w, budget), kind, windows + [w], budget)
    {
      forall x ensures x in windows + [w] <==> x in windows || x == w {}
    }

    lemma FilledMore(
      rules: map<Kind, map<string, Rule>>, filled: map<Kind, map<string, Rule>>, windows: seq<string>, w: string,
      budget: real)
      requires Filled(rules, windows, budget)
      requires forall kind :: kind in filled && filled[kind] == Extended(rules[kind], kind, w, budget)
      ensures Filled(filled, windows + [w], budget)
    {
      forall kind: Kind
        ensures Holds(filled[kind], kind, windows + [w], budget)
      {
        HoldsMore(rules[kind], kind, windows, w, budget);
      }
    }

    lemma FilledEmpty(rules: map<Kind, map<string, Rule>>, budget: real)
      requires forall kind :: kind in rules
      requires forall kind <- KINDS :: rules[kind] == map[]
      ensures Filled(rules, [], budget)
    {
      EveryKind();
    }

    lemma FilledAt(rules: map<Kind, map<string, Rule>>, windows: seq<string>, i: nat, budget: real)
      requires Filled(rules, windows, budget) && i < |windows|
      ensures BurnRate in rules && windows[i] in rules[BurnRate]
      ensures rules[BurnRate][windows[i]] == BurnRateRule(windows[i], budget)
    {
      hide BurnRateRule;
      assert windows[i] in windows;
    }

    /** One turn of the window loop: every later rule is built from the entry just stored before it. */
    method FillWindow(rules: map<Kind, map<string, Rule>>, w: string, budget: real)
      returns (filled: map<Kind, map<string, Rule>>)
      requires forall kind :: kind in rules
      ensures forall kind :: kind in filled && filled[kind] == Extended(rules[kind], kind, w, budget)
    {
      hide RecordingRule, RuleLabels, MeasurementOf, RatioOf, BurnRateOf;
      var total, good, bad := rules[Total], rules[Good], rules[Bad];
      total := total[w := RecordingRule(sli.spec.ratio.total.query, "sli_total", w)];
      assert total == Extended(rules[Total], Total, w, budget);
      if HasGoodQuery() {
        good := good[w := RecordingRule(sli.spec.ratio.good.query, "sli_good", w)];
      } else {
        bad := bad[w := RecordingRule(sli.spec.ratio.bad.query, "sli_bad", w)];
        good := good[w := Recording(GOOD_RECORD, Difference(total[w].record, bad[w].record), RuleLabels(w))];
      }
      assert bad == Extended(rules[Bad], Bad, w, budget);
      assert good == Extended(rules[Good], Good, w, budget);
      var measurement := rules[Measurement][w := MeasurementOf(total[w], good[w], w)];
      assert measurement == Extended(rules[Measurement], Measurement, w, budget);
      var ratio := rules[Ratio][w := RatioOf(measurement[w], w)];
      assert ratio == Extended(rules[Ratio], Ratio, w, budget);
      var burnRate := rules[BurnRate][w := BurnRateOf(ratio[w], budget, w)];
      assert burnRate == Extended(rules[BurnRate], BurnRate, w, budget);
      filled := AsTable(total, good, bad, measurement, ratio, burnRate);
      forall kind: Kind
        ensures filled[kind] == Extended(rules[kind], kind, w, budget)
      {
        match kind
        case Total =>
        case Bad =>
        case Good =>
        case Measurement =>
        case Ratio =>
        case BurnRate =>
      }
    }

    /** The rules of one kind collected in window order. */
    method CollectRow(column: map<string, Rule>, windows: seq<string>) returns (row: seq<Rule>)
      ensures row == Picked(column, windows)
    {
      row := [];
      for i := 0 to |windows|
        invariant row == Picked(column, windows[..i])
      {
        assert windows[..i + 1][..i] == windows[..i];
        if windows[i] in column {
          row := row + [column[windows[i]]];
        }
      }
      assert windows[..|windows|] == windows;
    }

    lemma {:induction false} PickedRow(column: map<string, Rule>, windows: seq<string>, rules: seq<Rule>)
      requires |rules| == |windows|
      requires forall i | 0 <= i < |windows| :: windows[i] in column && column[windows[i]] == rules[i]
      ensures Picked(column, windows) == rules
    {
      if windows != [] {
        PickedRow(column, windows[..|windows| - 1], rules[..|rules| - 1]);
      }
    }

    lemma {:induction false} PickedNothing(windows: seq<string>)
      ensures Picked(map[], windows) == []
    {
      if windows != [] {
        PickedNothing(windows[..|windows| - 1]);
      }
    }

    lemma PickedIsRow(column: map<string, Rule>, kind: Kind, windows: seq<string>, budget: real)
      requires Holds(column, kind, windows, budget)
      ensures Picked(column, windows) == Row(kind, windows, budget)
    {
      if Skipped(kind) {
        assert column == map[];
        PickedNothing(windows);
      } else {
        PickedRow(column, windows, Row(kind, windows, budget));
      }
    }

    /** The regrouping visits the kinds in any order, as a Go map is ranged over. */
    method CollectRows(rules: map<Kind, map<string, Rule>>, windows: seq<string>, ghost budget: real)
      returns (rows: map<Kind, seq<Rule>>)
      requires Filled(rules, windows, budget)
      ensures forall kind :: kind in rows && rows[kind] == Row(kind, windows, budget)
    {
      rows := map[];
      var left := rules.Keys;
      while left != {}
        invariant left <= rules.Keys
        invariant forall kind :: kind in left || kind in rows
        invariant forall kind | kind in rows :: rows[kind] == Row(kind, windows, budget)
        decreases |left|
      {
        var kind :| kind in left;
        left := left - {kind};
        var row := CollectRow(rules[kind], windows);
        PickedIsRow(rules[kind], kind, windows, budget);
        rows := rows[kind := row];
      }
    }

    method CreateAlerts(cfg: Config, table: map<string, Rule>) returns (alertRules: seq<Rule>)
      ensures alertRules == AlertRules(cfg, table, ALERTS)
    {
      hide AlertRule;
      alertRules := [];
      for i := 0 to |ALERTS|
        invariant alertRules == AlertRules(cfg, table, ALERTS[..i])
      {
        assert ALERTS[..i + 1][..i] == ALERTS[..i];
        var both := HasWindows(table, [ALERTS[i].short, ALERTS[i].long]);
        if both {
          alertRules := alertRules + [AlertRule(cfg, table, ALERTS[i])];
        }
      }
      assert ALERTS[..|ALERTS|] == ALERTS;
    }

    /** The table, filled window by window, and the burn rates alerts may use. */
    method FillTable(windows: seq<string>, budget: real)
      returns (rules: map<Kind, map<string, Rule>>, alertingBurnRates: seq<Rule>)
      ensures Filled(rules, windows, budget)
      ensures alertingBurnRates == AlertingBurnRates(windows, budget)
    {
      hide Filled, BurnRateRule, IsAlertWindow, Extended;
      rules := AsTable(map[], map[], map[], map[], map[], map[]);
      FilledEmpty(rules, budget);
      alertingBurnRates := [];
      for i := 0 to |windows|
        invariant forall kind :: kind in rules
        invariant Filled(rules, windows[..i], budget)
        invariant alertingBurnRates == AlertingBurnRates(windows[..i], budget)
      {
        PrefixGrows(windows, i);
        ghost var before := rules;
        rules := FillWindow(rules, windows[i], budget);
        FilledMore(before, rules, windows[..i], windows[i], budget);
        FilledAt(rules, windows[..i + 1], i, budget);
        if IsAlertWindow(windows[i]) {
          alertingBurnRates := alertingBurnRates + [rules[BurnRate][windows[i]]];
        }
      }
      assert windows[..|windows|] == windows;
    }

    /** The emitted groups, in order, built from the regrouped rows. */
    method EmitGroups(rows: map<Kind, seq<Rule>>, ghost budget: real) returns (groups: seq<RuleGroup>)
      requires slo.spec.targets != []
      requires forall kind :: kind in rows && rows[kind] == Row(kind, Windows(), budget)
      ensures groups == RecordingGroups(budget)
    {
      hide Row, TargetRule, Windows;
      groups := [
        RuleGroup(slo.meta.name + "_slo_target", [TargetRule()]),
        RuleGroup(slo.meta.name + "_sli_good", rows[Good]),
        RuleGroup(slo.meta.name + "_sli_total", rows[Total]),
        RuleGroup(slo.meta.name + "_sli_measurement", rows[Measurement]),
        RuleGroup(slo.meta.name + "_error_budget_ratio", rows[Ratio]),
        RuleGroup(slo.meta.name + "_burn_rate", rows[BurnRate])];
    }

    method SetupRules(cfg: Config) returns (result: Result<seq<RuleGroup>>)
      ensures result == Compile(cfg)
    {
      hide RecordingGroups, CheckedTarget, AlertRules, AlertingBurnRates, BurnRateTable, TargetRule, Row;
      var checked := CheckedTarget(cfg);
      if checked.Failure? { return Failure(checked.error); }
      var budget := 1.0 - checked.value;

      var windows := UniqueStrings([baseWindow, ExtendedWindow()] + ALERT_WINDOWS);
      assert windows == Windows();
      var rules, alertingBurnRates := FillTable(windows, budget);
      var rows := CollectRows(rules, windows, budget);
      var groups := EmitGroups(rows, budget);
      if MagicAlerting() {
        var table := GetBurnRateWindows(alertingBurnRates);
        var alertRules := CreateAlerts(cfg, table);
        groups := groups + [RuleGroup(slo.meta.name + "_slo_alert", alertRules)];
      } else {
        assert groups == RecordingGroups(budget) + [];
      }
      result := Success(groups);
    }
  }

  // ----- The PrometheusRule object -----

  function BaseWindow(cfg: Config, slo: Slo): string
  {
    var chosen := Get(slo.meta.annotations, "osko.dev/baseWindow");
    if chosen != "" then chosen else cfg.defaultBaseWindow
  }

  function ControllerRef(slo: Slo): OwnerRef
  {
    OwnerRef("SLO", slo.meta.name, slo.meta.uid, true)
  }

  function RuleGroups(cfg: Config, slo: Slo, sli: Sli): Result<seq<RuleGroup>>
  {
    MonitoringRuleSet(slo, sli, BaseWindow(cfg, slo)).Compile(cfg)
  }

  function CreatePrometheusRule(cfg: Config, slo: Slo, sli: Sli): Result<PrometheusRule>
  {
    match RuleGroups(cfg, slo, sli)
    case Failure(e) => Failure(e)
    case Success(groups) =>
      Success(Object(
        NO_META.(name := slo.meta.name, namespace := slo.meta.namespace, labels := slo.meta.labels,
                 annotations := slo.meta.annotations, owners := [ControllerRef(slo)]),
        groups, ()))
  }
}
