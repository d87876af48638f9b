/**
 What the compiler emits, in the terms of the SLO, the SLI and the configuration alone: when it fails and
 why, and every group, rule, expression, label and name of its output.
 */
module EmittedRules {
  import opened Text
  import opened Selectors
  import opened FixedPoint
  import opened Api
  import opened RuleCompiler
  import opened RuleTable
  import opened RuleReferences

  // ----- Inputs -----

  /** Equal but for the case of ASCII letters, the dotted capital I and the Kelvin sign. */
  predicate SameWord(s: string, lower: string)
  {
    |s| == |lower| && forall i | 0 <= i < |s| :: SameLetter(s[i], lower[i])
  }

  predicate SameLetter(c: char, lower: char)
  {
    || c == lower
    || ('a' <= lower <= 'z' && c as int == lower as int - 32)
    || (lower == 'i' && c == '\U{0130}') || (lower == 'k' && c == '\U{212A}')
  }

  /** Words in lower case. */
  predicate LowerWord(s: string)
  {
    forall i | 0 <= i < |s| :: 'a' <= s[i] <= 'z'
  }

  lemma LowersTo(s: string, lower: string)
    requires LowerWord(lower)
    ensures ToLower(s) == lower <==> SameWord(s, lower)
  {
    if ToLower(s) == lower {
      forall i | 0 <= i < |s|
        ensures SameLetter(s[i], lower[i])
      {
        assert ToLower(s)[i] == LowerChar(s[i]);
      }
    }
    if SameWord(s, lower) {
      forall i | 0 <= i < |s|
        ensures ToLower(s)[i] == lower[i]
      {
        assert SameLetter(s[i], lower[i]);
      }
    }
  }

  /** The kind of the total metric's source, or of the threshold metric's if the total metric names none. */
  predicate Supported(spec: SliSpec)
  {
    var kind := if spec.ratio.total.kind == "" then spec.threshold.kind else spec.ratio.total.kind;
    || SameWord(kind, "prometheus") || SameWord(kind, "mimir") || SameWord(kind, "cortex")
    || SameWord(kind, "victoriametrics") || SameWord(kind, "thanos")
  }

  lemma SupportedIff(spec: SliSpec)
    ensures IsPrometheusSource(spec) <==> Supported(spec)
  {
    hide ToLower, SameWord;
    var kind := SourceKind(spec);
    LowersTo(kind, "prometheus");
    LowersTo(kind, "mimir");
    LowersTo(kind, "cortex");
    LowersTo(kind, "victoriametrics");
    LowersTo(kind, "thanos");
  }

  /** The base window is the SLO's annotation if it has one. */
  function Base(cfg: Config, slo: Slo): string
  {
    if "osko.dev/baseWindow" in slo.meta.annotations && slo.meta.annotations["osko.dev/baseWindow"] != ""
    then slo.meta.annotations["osko.dev/baseWindow"]
    else cfg.defaultBaseWindow
  }

  /** The first time window if it has a duration, and 28 days otherwise. */
  function Longest(slo: Slo): string
  {
    if |slo.spec.timeWindows| > 0 && slo.spec.timeWindows[0] != "" then slo.spec.timeWindows[0] else "28d"
  }

  function AllWindows(cfg: Config, slo: Slo): seq<string>
  {
    Unique([Base(cfg, slo), Longest(slo), "5m", "30m", "1h", "2h", "6h", "24h", "3d"])
  }

  /** The compiler's failures, the first in this order that applies; a missing objective makes it panic. */
  function Failing(cfg: Config, slo: Slo, sli: Sli): Option<CompileError>
  {
    if !Supported(sli.spec) then Some(UnsupportedSource)
    else if slo.spec.targets == [] then Some(NoObjectives)
    else if cfg.parseFloat(slo.spec.targets[0]).None? then Some(BadTarget)
    else if 0.0 < cfg.parseFloat(slo.spec.targets[0]).value < 1.0 then None
    else Some(InvalidTarget)
  }

  /** Compilation succeeds exactly without such a failure, and otherwise reports the first. */
  lemma CompilesIff(cfg: Config, slo: Slo, sli: Sli)
    ensures RuleGroups(cfg, slo, sli).Success? <==> Failing(cfg, slo, sli).None?
    ensures RuleGroups(cfg, slo, sli).Failure? ==> Failing(cfg, slo, sli) == Some(RuleGroups(cfg, slo, sli).error)
  {
    hide MonitoringRuleSet.Groups, IsPrometheusSource, Supported;
    SupportedIff(sli.spec);
  }

  // ----- Labels -----

  const BASE_KEYS := {"namespace", "service", "sli_name", "slo_name", "window"}

  function BaseValue(slo: Slo, sli: Sli, w: string, key: string): string
  {
    if key == "namespace" then slo.meta.namespace
    else if key == "service" then slo.spec.service
    else if key == "sli_name" then sli.meta.name
    else if key == "slo_name" then slo.meta.name
    else w
  }

  /** The five base labels, and those the SLO's labels ask for, which win. */
  ghost predicate LabelledFor(labels: Labels, slo: Slo, sli: Sli, w: string)
  {
    && (forall k :: k in labels <==> k in BASE_KEYS || "label.osko.dev/" + k in slo.meta.labels)
    && forall k | k in labels ::
         labels[k] == if "label.osko.dev/" + k in slo.meta.labels then slo.meta.labels["label.osko.dev/" + k]
                      else BaseValue(slo, sli, w, k)
  }

  lemma UserLabelled(labels: Labels)
    ensures forall k :: k in UserLabels(labels) <==> "label.osko.dev/" + k in labels
    ensures forall k | k in UserLabels(labels) :: UserLabels(labels)[k] == labels["label.osko.dev/" + k]
  {
    assert LABEL_PREFIX == "label.osko.dev/";
  }

  lemma BaseLabelled(mrs: MonitoringRuleSet, w: string, k: string)
    ensures k in mrs.BaseLabels(w) <==> k in BASE_KEYS
    ensures k in mrs.BaseLabels(w) ==> mrs.BaseLabels(w)[k] == BaseValue(mrs.slo, mrs.sli, w, k)
  {
  }

  lemma RuleLabelled(mrs: MonitoringRuleSet, w: string)
    ensures LabelledFor(mrs.RuleLabels(w), mrs.slo, mrs.sli, w)
  {
    hide UserLabels, MonitoringRuleSet.BaseLabels, BaseValue, BASE_KEYS;
    UserLabelled(mrs.slo.meta.labels);
    forall k
      ensures k in mrs.BaseLabels(w) <==> k in BASE_KEYS
      ensures k in mrs.BaseLabels(w) ==> mrs.BaseLabels(w)[k] == BaseValue(mrs.slo, mrs.sli, w, k)
    {
      BaseLabelled(mrs, w, k);
    }
  }

  /** The labels are a merge, the user's coming last. */
  lemma RuleLabelsMerged(mrs: MonitoringRuleSet, w: string)
    ensures mrs.RuleLabels(w) == Merged([mrs.BaseLabels(w), UserLabels(mrs.slo.meta.labels)])
  {
    hide MonitoringRuleSet.BaseLabels, UserLabels;
    var ms := [mrs.BaseLabels(w), UserLabels(mrs.slo.meta.labels)];
    assert ms[..1] == [mrs.BaseLabels(w)] && ms[..1][..0] == [];
    assert Merged(ms[..1]) == Merged([]) + mrs.BaseLabels(w);
  }

  // ----- Recording rules -----

  /** A recording rule and nothing but that. */
  ghost predicate Records(rule: Rule, record: string, expr: Expr, slo: Slo, sli: Sli, w: string)
  {
    && rule.record == record && rule.alert == "" && rule.expr == expr && rule.duration == None
    && rule.annotations == map[] && LabelledFor(rule.labels, slo, sli, w)
  }

  /** A raw query aggregated over a window. */
  function Counted(sli: Sli, query: string, w: string): Expr
  {
    Aggregate(if sli.spec.ratio.counter then "rate" else "avg_over_time", query, w,
              "namespace, service, sli_name, slo_name")
  }

  /** The good count: its own query, or the total less the bad record when there is none. */
  function GoodExpr(sli: Sli, w: string): Expr
  {
    if sli.spec.ratio.good.query != "" then Counted(sli, sli.spec.ratio.good.query, w)
    else Difference("osko_sli_total", "osko_sli_bad")
  }

  /** The rules for one window: good, total, measurement, error ratio and burn rate, for an error budget. */
  ghost predicate WindowRules(
    rules: seq<Rule>, slo: Slo, sli: Sli, w: string, budget: real)
  {
    && |rules| == 5
    && var matchers := PrintSelector(rules[0].labels);
    && Records(rules[0], "osko_sli_good", GoodExpr(sli, w), slo, sli, w)
    && Records(rules[1], "osko_sli_total", Counted(sli, sli.spec.ratio.total.query, w), slo, sli, w)
    && Records(rules[2], "osko_sli_measurement",
               CappedRatio(Ref("osko_sli_good", matchers), Ref("osko_sli_total", matchers)), slo, sli, w)
    && Records(rules[3], "osko_error_budget_ratio", Complement(Ref("osko_sli_measurement", matchers)), slo, sli, w)
    && Records(rules[4], "osko_error_budget_burn_rate",
               Quotient(Ref("osko_error_budget_ratio", matchers), PrintFixed(budget, 10)), slo, sli, w)
  }

  lemma CountedRules(mrs: MonitoringRuleSet, w: string)
    ensures mrs.TotalRule(w).expr == Counted(mrs.sli, mrs.sli.spec.ratio.total.query, w)
    ensures mrs.GoodRule(w).expr == GoodExpr(mrs.sli, w)
    ensures mrs.BadRule(w).expr == Counted(mrs.sli, mrs.sli.spec.ratio.bad.query, w)
  {
    hide MonitoringRuleSet.RuleLabels;
    RecordNames();
    assert GROUPING == "namespace, service, sli_name, slo_name";
  }

  lemma WindowRulesOf(mrs: MonitoringRuleSet, w: string, budget: real)
    ensures WindowRules(
      [mrs.GoodRule(w), mrs.TotalRule(w), mrs.MeasurementRule(w), mrs.RatioRule(w), mrs.BurnRateRule(w, budget)],
      mrs.slo, mrs.sli, w, budget)
  {
    hide MonitoringRuleSet.RuleLabels, LabelledFor, PrintSelector, PrintFixed;
    RuleLabelled(mrs, w);
    CountedRules(mrs, w);
    RecordNames();
    RecordLiterals();
  }

  lemma RecordLiterals()
    ensures TARGET_RECORD == "osko_slo_target" && TOTAL_RECORD == "osko_sli_total" && GOOD_RECORD == "osko_sli_good"
    ensures BAD_RECORD == "osko_sli_bad" && MEASUREMENT_RECORD == "osko_sli_measurement"
    ensures RATIO_RECORD == "osko_error_budget_ratio" && BURN_RATE_RECORD == "osko_error_budget_burn_rate"
  {
  }

  lemma WindowsAre(cfg: Config, slo: Slo, sli: Sli)
    ensures BaseWindow(cfg, slo) == Base(cfg, slo)
    ensures MonitoringRuleSet(slo, sli, BaseWindow(cfg, slo)).Windows() == AllWindows(cfg, slo)
  {
    hide Unique;
    assert ALERT_WINDOWS == ["5m", "30m", "1h", "2h", "6h", "24h", "3d"];
    var mrs := MonitoringRuleSet(slo, sli, BaseWindow(cfg, slo));
    assert [mrs.baseWindow, mrs.ExtendedWindow()] + ALERT_WINDOWS
        == [Base(cfg, slo), Longest(slo), "5m", "30m", "1h", "2h", "6h", "24h", "3d"];
  }

  predicate Magic(slo: Slo)
  {
    "osko.dev/magicAlerting" in slo.meta.annotations && slo.meta.annotations["osko.dev/magicAlerting"] == "true"
  }

  const GROUP_SUFFIXES := [
    "_slo_target", "_sli_good", "_sli_total", "_sli_measurement", "_error_budget_ratio", "_burn_rate", "_slo_alert"]

  /** The groups by name: the target, one per kind of recording rule, and the alerts if asked for. */
  predicate Named(groups: seq<RuleGroup>, slo: Slo)
  {
    && |groups| == (if Magic(slo) then 7 else 6)
    && forall g | 0 <= g < |groups| :: groups[g].name == slo.meta.name + GROUP_SUFFIXES[g]
  }

  /** The recording groups, window by window, for the target `t` the first objective's text stands for. */
  ghost predicate Recorded(cfg: Config, slo: Slo, sli: Sli, groups: seq<RuleGroup>, t: real)
    requires slo.spec.targets != [] && |groups| >= 6
  {
    var ws := AllWindows(cfg, slo);
    && |groups[0].rules| == 1
    && Records(groups[0].rules[0], "osko_slo_target", Constant(slo.spec.targets[0]), slo, sli, Base(cfg, slo))
    && (forall g | 1 <= g <= 5 :: |groups[g].rules| == |ws|)
    && forall i | 0 <= i < |ws| ::
         WindowRules(
           [groups[1].rules[i], groups[2].rules[i], groups[3].rules[i], groups[4].rules[i], groups[5].rules[i]],
           slo, sli, ws[i], 1.0 - t)
  }

  /** What is emitted: the groups by name, and in them exactly the recording rules the SLO calls for. */
  lemma EmittedRecordings(cfg: Config, slo: Slo, sli: Sli, groups: seq<RuleGroup>)
    requires RuleGroups(cfg, slo, sli) == Success(groups)
    ensures slo.spec.targets != [] && cfg.parseFloat(slo.spec.targets[0]).Some?
    ensures 0.0 < cfg.parseFloat(slo.spec.targets[0]).value < 1.0
    ensures Named(groups, slo) && Recorded(cfg, slo, sli, groups, cfg.parseFloat(slo.spec.targets[0]).value)
  {
    hide MonitoringRuleSet.Groups, MonitoringRuleSet.Windows, AllWindows, Recorded, RecordedAs, Named, Supported,
      IsPrometheusSource;
    CompilesIff(cfg, slo, sli);
    var mrs := MonitoringRuleSet(slo, sli, BaseWindow(cfg, slo));
    var t := cfg.parseFloat(slo.spec.targets[0]).value;
    SupportedIff(sli.spec);
    assert groups == mrs.Groups(cfg, 1.0 - t);
    WindowsAre(cfg, slo, sli);
    NamedGroups(mrs, cfg, 1.0 - t);
    GroupsRecorded(cfg, mrs, 1.0 - t);
    RecordedIs(cfg, slo, sli, groups, t);
  }

  /** The same for a rule set. */
  ghost predicate RecordedAs(mrs: MonitoringRuleSet, groups: seq<RuleGroup>, budget: real)
    requires mrs.slo.spec.targets != []
  {
    && |groups| >= 6 && |groups[0].rules| == 1
    && Records(groups[0].rules[0], "osko_slo_target", Constant(mrs.slo.spec.targets[0]), mrs.slo, mrs.sli,
               mrs.baseWindow)
    && (forall g | 1 <= g <= 5 :: |groups[g].rules| == |mrs.Windows()|)
    && forall i | 0 <= i < |mrs.Windows()| ::
         WindowRules(
           [groups[1].rules[i], groups[2].rules[i], groups[3].rules[i], groups[4].rules[i], groups[5].rules[i]],
           mrs.slo, mrs.sli, mrs.Windows()[i], budget)
  }

  lemma RecordedIs(cfg: Config, slo: Slo, sli: Sli, groups: seq<RuleGroup>, t: real)
    requires slo.spec.targets != []
    requires RecordedAs(MonitoringRuleSet(slo, sli, BaseWindow(cfg, slo)), groups, 1.0 - t)
    ensures |groups| >= 6 && Recorded(cfg, slo, sli, groups, t)
  {
    hide WindowRules, Records, AllWindows, MonitoringRuleSet.Windows;
    WindowsAre(cfg, slo, sli);
  }

  lemma GroupsRecorded(cfg: Config, mrs: MonitoringRuleSet, budget: real)
    requires mrs.slo.spec.targets != []
    ensures RecordedAs(mrs, mrs.Groups(cfg, budget), budget)
  {
    hide MonitoringRuleSet.Groups, MonitoringRuleSet.Windows, WindowRules, MonitoringRuleSet.GoodRule,
      MonitoringRuleSet.TotalRule, MonitoringRuleSet.MeasurementRule, MonitoringRuleSet.RatioRule,
      MonitoringRuleSet.BurnRateRule, MonitoringRuleSet.TargetRule, MonitoringRuleSet.Row, Records;
    var groups, ws := mrs.Groups(cfg, budget), mrs.Windows();
    RowsAt(mrs, cfg, budget, 0);
    TargetIs(mrs);
    WindowsNotEmpty(mrs);
    RowRules(mrs, 0, budget);
    forall g | 1 <= g <= 5
      ensures groups[g].rules == mrs.Row(KindAt(g), ws, budget) && |groups[g].rules| == |ws|
    {
      RowsAt(mrs, cfg, budget, g);
    }
    forall i | 0 <= i < |ws|
      ensures WindowRules(
        [groups[1].rules[i], groups[2].rules[i], groups[3].rules[i], groups[4].rules[i], groups[5].rules[i]],
        mrs.slo, mrs.sli, ws[i], budget)
    {
      RowRules(mrs, i, budget);
      WindowRulesOf(mrs, ws[i], budget);
    }
  }

  lemma WindowsNotEmpty(mrs: MonitoringRuleSet)
    ensures |mrs.Windows()| > 0
  {
    WindowsInOrder(mrs);
    assert mrs.baseWindow in mrs.Windows();
  }

  lemma RowRules(mrs: MonitoringRuleSet, i: int, budget: real)
    requires 0 <= i < |mrs.Windows()|
    ensures forall kind | kind != Bad :: |mrs.Row(kind, mrs.Windows(), budget)| == |mrs.Windows()|
    ensures var w := mrs.Windows()[i];
      && mrs.Row(Good, mrs.Windows(), budget)[i] == mrs.GoodRule(w)
      && mrs.Row(Total, mrs.Windows(), budget)[i] == mrs.TotalRule(w)
      && mrs.Row(Measurement, mrs.Windows(), budget)[i] == mrs.MeasurementRule(w)
      && mrs.Row(Ratio, mrs.Windows(), budget)[i] == mrs.RatioRule(w)
      && mrs.Row(BurnRate, mrs.Windows(), budget)[i] == mrs.BurnRateRule(w, budget)
  {
    hide MonitoringRuleSet.Windows, MonitoringRuleSet.GoodRule, MonitoringRuleSet.TotalRule,
      MonitoringRuleSet.MeasurementRule, MonitoringRuleSet.RatioRule, MonitoringRuleSet.BurnRateRule;
  }

  lemma TargetIs(mrs: MonitoringRuleSet)
    requires mrs.slo.spec.targets != []
    ensures Records(mrs.TargetRule(), "osko_slo_target", Constant(mrs.slo.spec.targets[0]), mrs.slo, mrs.sli,
                    mrs.baseWindow)
  {
    hide MonitoringRuleSet.RuleLabels, LabelledFor;
    RuleLabelled(mrs, mrs.baseWindow);
    RecordLiterals();
  }

  lemma NamedGroups(mrs: MonitoringRuleSet, cfg: Config, budget: real)
    requires mrs.slo.spec.targets != []
    ensures Named(mrs.Groups(cfg, budget), mrs.slo)
  {
    hide MonitoringRuleSet.Row, MonitoringRuleSet.TargetRule, MonitoringRuleSet.AlertRules,
      MonitoringRuleSet.Windows, BurnRateTable, MonitoringRuleSet.AlertingBurnRates;
  }

  // ----- Alerts -----

  /** The j-th alert's windows and severity. */
  function Short(j: nat): string
    requires j < 4
  {
    ["5m", "30m", "2h", "6h"][j]
  }

  function Long(j: nat): string
    requires j < 4
  {
    ["1h", "6h", "24h", "3d"][j]
  }

  function SeverityAt(j: nat): Severity
    requires j < 4
  {
    [PageCritical, PageHigh, TicketHigh, TicketMedium][j]
  }

  function SeverityText(j: nat): string
    requires j < 4
  {
    ["page_critical", "page_high", "ticket_high", "ticket_medium"][j]
  }

  /** The configured threshold of the j-th alert. */
  function Limit(cfg: Config, j: nat): real
    requires j < 4
  {
    [cfg.pageShortWindow, cfg.pageLongWindow, cfg.ticketShortWindow, cfg.ticketLongWindow][j]
  }

  lemma AlertTable(cfg: Config, j: nat)
    requires j < 4
    ensures ALERTS[j].short == Short(j) && ALERTS[j].long == Long(j) && ALERTS[j].severity == SeverityAt(j)
    ensures Threshold(cfg, ALERTS[j].severity) == Limit(cfg, j)
    ensures SeverityName(ALERTS[j].severity) == SeverityText(j)
  {
  }

  /** The SLO's own alerting tool, or the configured one. */
  function Tool(cfg: Config, slo: Slo): string
  {
    if "osko.dev/alertingTool" in slo.meta.annotations && slo.meta.annotations["osko.dev/alertingTool"] != ""
    then slo.meta.annotations["osko.dev/alertingTool"]
    else cfg.alertingTool
  }

  /** The j-th alert, over burn-rate rules with these labels for its short and its long window. */
  predicate AlertFor(rule: Rule, cfg: Config, slo: Slo, sli: Sli, j: nat, short: Labels, long: Labels)
    requires j < 4
  {
    var limit := PrintFixed(Limit(cfg, j), 1);
    && rule.record == "" && rule.alert == slo.meta.name + "_alert_" + SeverityText(j) && rule.duration == Some("5m")
    && rule.expr == BothAbove(Ref("osko_error_budget_burn_rate", PrintSelector(short)), limit,
                              Ref("osko_error_budget_burn_rate", PrintSelector(long)), limit)
    && rule.labels.Keys == {"severity", "slo_name", "sli_name", "short_window", "long_window"}
    && rule.labels["severity"] == cfg.severity(Tool(cfg, slo), SeverityAt(j))
    && rule.labels["slo_name"] == slo.meta.name && rule.labels["sli_name"] == sli.meta.name
    && rule.labels["short_window"] == Short(j) && rule.labels["long_window"] == Long(j)
    && rule.annotations.Keys == {"summary", "description"} && rule.annotations["summary"] == "SLO Burn Rate Alert"
    && rule.annotations["description"]
       == "The burn rate of SLO " + slo.meta.name + " is consuming error budget faster than acceptable. Short window: "
          + Short(j) + ", Long window: " + Long(j)
  }

  /** Four alerts, each over the emitted burn-rate rules of its two windows. */
  predicate FourAlerts(cfg: Config, slo: Slo, sli: Sli, alerts: seq<Rule>, burnRates: seq<Rule>, ws: seq<string>)
  {
    && |alerts| == 4 && |burnRates| == |ws|
    && forall j: nat | j < 4 ::
         && Short(j) in ws && Long(j) in ws
         && forall s, l | 0 <= s < |ws| && 0 <= l < |ws| && ws[s] == Short(j) && ws[l] == Long(j) ::
              AlertFor(alerts[j], cfg, slo, sli, j, burnRates[s].labels, burnRates[l].labels)
  }

  /**
   The alerts: none without the annotation or with a user label for the window, and otherwise exactly these
   four.
   */
  lemma EmittedAlerts(cfg: Config, slo: Slo, sli: Sli, groups: seq<RuleGroup>)
    requires RuleGroups(cfg, slo, sli) == Success(groups)
    ensures !Magic(slo) ==> |groups| == 6
    ensures Magic(slo) ==> |groups| == 7
    ensures Magic(slo) && "label.osko.dev/window" in slo.meta.labels ==> groups[6].rules == []
    ensures Magic(slo) && "label.osko.dev/window" !in slo.meta.labels ==>
      FourAlerts(cfg, slo, sli, groups[6].rules, groups[5].rules, AllWindows(cfg, slo))
  {
    hide MonitoringRuleSet.Groups, MonitoringRuleSet.Windows, MonitoringRuleSet.AlertGroup, AllWindows, ALERTS,
      MonitoringRuleSet.TargetRule, MonitoringRuleSet.Row, UserLabels, Magic, FourAlerts, Failing;
    CompilesIff(cfg, slo, sli);
    var mrs := MonitoringRuleSet(slo, sli, BaseWindow(cfg, slo));
    var budget := 1.0 - mrs.CheckedTarget(cfg).value;
    assert groups == mrs.Groups(cfg, budget);
    WindowsAre(cfg, slo, sli);
    MagicIs(mrs);
    RowsAt(mrs, cfg, budget, 5);
    RowsAt(mrs, cfg, budget, 6);
    if Magic(slo) {
      UserWindowIs(slo.meta.labels);
      if "label.osko.dev/window" in slo.meta.labels {
        NoneWithUserWindow(mrs, cfg, budget);
      } else {
        AlertsAreFour(cfg, mrs, budget);
      }
    }
  }

  lemma NoneWithUserWindow(mrs: MonitoringRuleSet, cfg: Config, budget: real)
    requires "window" in UserLabels(mrs.slo.meta.labels)
    ensures mrs.AlertGroup(cfg, budget).rules == []
  {
    hide MonitoringRuleSet.AlertGroup, UserLabels;
    AlertsAllOrNothing(mrs, cfg, budget);
  }

  lemma AlertsAreFour(cfg: Config, mrs: MonitoringRuleSet, budget: real)
    requires "window" !in UserLabels(mrs.slo.meta.labels)
    ensures FourAlerts(cfg, mrs.slo, mrs.sli, mrs.AlertGroup(cfg, budget).rules,
                       mrs.Row(BurnRate, mrs.Windows(), budget), mrs.Windows())
  {
    hide MonitoringRuleSet.Windows, MonitoringRuleSet.AlertGroup, MonitoringRuleSet.Row, AlertFor, UserLabels,
      MonitoringRuleSet.BurnRateRule, MonitoringRuleSet.TwoWindowAlert, Short, Long, SeverityAt, ALERTS;
    AlertsAllOrNothing(mrs, cfg, budget);
    var ws := mrs.Windows();
    WindowsNotEmpty(mrs);
    RowEntry(mrs, BurnRate, budget, 0);
    forall j: nat | j < 4
      ensures Short(j) in ws && Long(j) in ws
      ensures forall s, l | 0 <= s < |ws| && 0 <= l < |ws| && ws[s] == Short(j) && ws[l] == Long(j) ::
        AlertFor(mrs.AlertGroup(cfg, budget).rules[j], cfg, mrs.slo, mrs.sli, j,
                 mrs.Row(BurnRate, ws, budget)[s].labels, mrs.Row(BurnRate, ws, budget)[l].labels)
    {
      AlertWindowsEmitted(cfg, mrs, j);
      AlertTable(cfg, j);
      AlertIsFor(cfg, mrs, budget, j);
      forall s, l | 0 <= s < |ws| && 0 <= l < |ws| && ws[s] == Short(j) && ws[l] == Long(j)
        ensures mrs.Row(BurnRate, ws, budget)[s] == mrs.BurnRateRule(Short(j), budget)
        ensures mrs.Row(BurnRate, ws, budget)[l] == mrs.BurnRateRule(Long(j), budget)
      {
        RowRules(mrs, s, budget);
        RowRules(mrs, l, budget);
      }
    }
  }

  lemma UserWindowIs(labels: Labels)
    ensures "window" in UserLabels(labels) <==> "label.osko.dev/window" in labels
  {
    UserLabelled(labels);
    assert "label.osko.dev/" + "window" == "label.osko.dev/window";
    hide UserLabels;
  }

  lemma MagicIs(mrs: MonitoringRuleSet)
    ensures mrs.MagicAlerting() <==> Magic(mrs.slo)
  {
  }

  lemma AlertWindowsEmitted(cfg: Config, mrs: MonitoringRuleSet, j: nat)
    requires j < 4
    ensures Short(j) in mrs.Windows() && Long(j) in mrs.Windows()
  {
    hide MonitoringRuleSet.Windows;
    AlertTable(cfg, j);
    AlertPairs(ALERTS[j]);
    AlertWindowsPresent(mrs, Short(j));
    AlertWindowsPresent(mrs, Long(j));
  }

  lemma AlertIsFor(cfg: Config, mrs: MonitoringRuleSet, budget: real, j: nat)
    requires j < 4 && "window" !in UserLabels(mrs.slo.meta.labels)
    ensures var short, long := mrs.BurnRateRule(Short(j), budget), mrs.BurnRateRule(Long(j), budget);
      AlertFor(mrs.TwoWindowAlert(cfg, short, long, SeverityAt(j)), cfg, mrs.slo, mrs.sli, j, short.labels, long.labels)
  {
    hide PrintSelector, PrintFixed, UserLabels, MonitoringRuleSet.BurnRateRule, MonitoringRuleSet.RuleLabels, Short,
      Long, Limit, Threshold, SeverityName, SeverityText, SeverityAt, ALERTS, MonitoringRuleSet.AlertingTool, Tool,
      Get;
    AlertTable(cfg, j);
    RecordLiterals();
    ToolIs(cfg, mrs);
    BurnRateIs(mrs, Short(j), budget);
    BurnRateIs(mrs, Long(j), budget);
  }

  lemma ToolIs(cfg: Config, mrs: MonitoringRuleSet)
    ensures mrs.AlertingTool(cfg) == Tool(cfg, mrs.slo)
  {
  }

  lemma BurnRateIs(mrs: MonitoringRuleSet, w: string, budget: real)
    requires "window" !in UserLabels(mrs.slo.meta.labels)
    ensures var rule := mrs.BurnRateRule(w, budget); rule.record == BURN_RATE_RECORD && Get(rule.labels, "window") == w
  {
    hide MonitoringRuleSet.BurnRateRule, MonitoringRuleSet.RuleLabels, UserLabels;
    RuleOfKind(mrs, BurnRate, w, budget);
    RuleWindow(mrs, w);
    assert mrs.RuleOf(BurnRate, w, budget) == mrs.BurnRateRule(w, budget);
  }

  // ----- The budget -----

  /**
   Every burn rate divides by the error budget: the divisor in the text reads back within 5e-11 of one less
   the number the first objective's text stands for.
   */
  lemma BurnRatesDivideByBudget(cfg: Config, slo: Slo, sli: Sli, groups: seq<RuleGroup>, i: int)
    requires RuleGroups(cfg, slo, sli) == Success(groups)
    requires |groups| >= 6 && 0 <= i < |groups[5].rules|
    ensures slo.spec.targets != [] && cfg.parseFloat(slo.spec.targets[0]).Some?
    ensures groups[5].rules[i].expr.Quotient?
    ensures var divisor := ParseFixed(groups[5].rules[i].expr.divisor);
      && divisor.Some?
      && Magnitude(divisor.value - (1.0 - cfg.parseFloat(slo.spec.targets[0]).value)) <= 0.000_000_000_05
  {
    hide AllWindows, PrintFixed, Rounded, Magnitude, ParseFixed, WindowRules, Records, Named, RuleGroups;
    EmittedRecordings(cfg, slo, sli, groups);
    var budget := 1.0 - cfg.parseFloat(slo.spec.targets[0]).value;
    ParsePrinted(budget, 10);
    PrintedBudgetNear(budget);
    BurnRateOf(
      [groups[1].rules[i], groups[2].rules[i], groups[3].rules[i], groups[4].rules[i], groups[5].rules[i]],
      slo, sli, AllWindows(cfg, slo)[i], budget);
  }

  lemma BurnRateOf(rules: seq<Rule>, slo: Slo, sli: Sli, w: string, budget: real)
    requires WindowRules(rules, slo, sli, w, budget)
    ensures rules[4].expr.Quotient? && rules[4].expr.divisor == PrintFixed(budget, 10)
  {
    hide LabelledFor, PrintSelector, PrintFixed;
  }

  // ----- The object -----

  /** The PrometheusRule object: the SLO's name, namespace, labels and annotations, controlled by it, and the groups. */
  lemma EmittedObject(cfg: Config, slo: Slo, sli: Sli)
    ensures CreatePrometheusRule(cfg, slo, sli).Success? <==> Failing(cfg, slo, sli).None?
    ensures CreatePrometheusRule(cfg, slo, sli).Success? ==>
      var p := CreatePrometheusRule(cfg, slo, sli).value;
      && RuleGroups(cfg, slo, sli) == Success(p.spec)
      && p.meta == Meta(slo.meta.name, slo.meta.namespace, slo.meta.labels, slo.meta.annotations,
                        [OwnerRef("SLO", slo.meta.name, slo.meta.uid, true)], [], false, 0, 0)
  {
    hide RuleGroups, Failing;
    CompilesIff(cfg, slo, sli);
  }
}
