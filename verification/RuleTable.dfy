/**
 The shape of a compiled rule table: one rule per kind and distinct window, four alerts or none, and
 which references inside it are closed, unambiguous and acyclic.
 */
module RuleTable {
  import opened Text
  import opened Selectors
  import opened FixedPoint
  import opened Api
  import opened RuleCompiler

  // ----- Windows -----

  /** The table's windows: base, extended and the seven alerting windows, each once, in first-occurrence order. */
  lemma WindowsInOrder(mrs: MonitoringRuleSet)
    ensures Distinct(mrs.Windows())
    ensures forall w :: w in mrs.Windows() <==> w == mrs.baseWindow || w == mrs.ExtendedWindow() || w in ALERT_WINDOWS
    ensures var input := [mrs.baseWindow, mrs.ExtendedWindow()] + ALERT_WINDOWS;
      forall i, j | 0 <= i < j < |mrs.Windows()| ::
        First(input, mrs.Windows()[i]) < First(input, mrs.Windows()[j])
  {
    var input := [mrs.baseWindow, mrs.ExtendedWindow()] + ALERT_WINDOWS;
    UniqueLists(input);
    forall i, j | 0 <= i < j < |mrs.Windows()|
      ensures First(input, mrs.Windows()[i]) < First(input, mrs.Windows()[j])
    {
      UniqueInFirstOrder(input, i, j);
    }
  }

  // ----- Rules by kind -----

  /** The record name of a kind's rules. */
  function RecordOf(kind: Kind): string
  {
    match kind
    case Total => TOTAL_RECORD
    case Good => GOOD_RECORD
    case Bad => BAD_RECORD
    case Measurement => MEASUREMENT_RECORD
    case Ratio => RATIO_RECORD
    case BurnRate => BURN_RATE_RECORD
  }

  lemma RecordsDiffer(a: Kind, b: Kind)
    ensures RecordOf(a) == RecordOf(b) <==> a == b
    ensures RecordOf(a) != TARGET_RECORD && RecordOf(a) != ""
  {
    assert |TOTAL_RECORD| == 14 && |GOOD_RECORD| == 13 && |BAD_RECORD| == 12 && |TARGET_RECORD| == 15;
    assert |MEASUREMENT_RECORD| == 20 && |RATIO_RECORD| == 23 && |BURN_RATE_RECORD| == 27;
  }

  lemma RecordNames()
    ensures "osko_" + "sli_total" == TOTAL_RECORD
    ensures "osko_" + "sli_good" == GOOD_RECORD
    ensures "osko_" + "sli_bad" == BAD_RECORD
  {
  }

  lemma RuleOfKind(mrs: MonitoringRuleSet, kind: Kind, w: string, budget: real)
    ensures mrs.RuleOf(kind, w, budget).record == RecordOf(kind)
    ensures mrs.RuleOf(kind, w, budget).labels == mrs.RuleLabels(w)
    ensures mrs.RuleOf(kind, w, budget).alert == ""
  {
    RecordNames();
    hide PrintSelector, PrintFixed;
  }

  lemma RuleWindow(mrs: MonitoringRuleSet, w: string)
    ensures "window" in mrs.RuleLabels(w)
    ensures "window" !in UserLabels(mrs.slo.meta.labels) ==> mrs.RuleLabels(w)["window"] == w
    ensures "window" in UserLabels(mrs.slo.meta.labels) ==>
      mrs.RuleLabels(w)["window"] == UserLabels(mrs.slo.meta.labels)["window"]
  {
    hide UserLabels;
    assert mrs.BaseLabels(w)["window"] == w;
  }

  /** With a user label keyed `window`, a kind's rules all carry the same labels. */
  lemma SameLabels(mrs: MonitoringRuleSet, v: string, w: string)
    ensures "window" in UserLabels(mrs.slo.meta.labels) ==> mrs.RuleLabels(v) == mrs.RuleLabels(w)
    ensures "window" !in UserLabels(mrs.slo.meta.labels) && v != w ==> mrs.RuleLabels(v) != mrs.RuleLabels(w)
  {
    RuleWindow(mrs, v);
    RuleWindow(mrs, w);
    hide UserLabels;
    var user := UserLabels(mrs.slo.meta.labels);
    if "window" in user {
      assert mrs.BaseLabels(v) - {"window"} == mrs.BaseLabels(w) - {"window"};
      forall k | k in mrs.RuleLabels(v) ensures k in mrs.RuleLabels(w) && mrs.RuleLabels(v)[k] == mrs.RuleLabels(w)[k] {
        if k !in user { assert k in mrs.BaseLabels(v) - {"window"}; }
      }
      forall k | k in mrs.RuleLabels(w) ensures k in mrs.RuleLabels(v) {
        if k !in user { assert k in mrs.BaseLabels(w) - {"window"}; }
      }
    }
  }

  // ----- The table alerts look up -----

  /** The rule is labelled with this window, which is not empty. */
  predicate ForWindow(rule: Rule, w: string)
  {
    w != "" && "window" in rule.labels && rule.labels["window"] == w
  }

  /** The table has a window if some rule is labelled with it, and holds the last such rule. */
  lemma {:induction false} LastBurnRateWins(rules: seq<Rule>, w: string)
    ensures w in BurnRateTable(rules) <==> exists i :: 0 <= i < |rules| && ForWindow(rules[i], w)
    ensures forall i | 0 <= i < |rules| && ForWindow(rules[i], w)
        && (forall j | i < j < |rules| :: !ForWindow(rules[j], w)) ::
      BurnRateTable(rules)[w] == rules[i]
  {
    if rules != [] {
      var n := |rules| - 1;
      LastBurnRateWins(rules[..n], w);
      assert forall i | 0 <= i < n :: rules[..n][i] == rules[i];
      assert rules[n] == rules[|rules| - 1];
    }
  }

  /** No expression has an empty text, so a rule is usable if it has a record. */
  lemma ValidIff(rule: Rule)
    ensures IsValidRule(rule) <==> rule.record != ""
  {
  }

  // ----- Alerts -----

  lemma {:induction false} BurnRateTableNoUser(mrs: MonitoringRuleSet, windows: seq<string>, budget: real)
    requires "window" !in UserLabels(mrs.slo.meta.labels)
    ensures var table := BurnRateTable(mrs.AlertingBurnRates(windows, budget));
      && (forall w :: w in table <==> w in windows && IsAlertWindow(w))
      && (forall w | w in table :: table[w] == mrs.BurnRateRule(w, budget))
  {
    hide MonitoringRuleSet.BurnRateRule, UserLabels, IsAlertWindow;
    if windows != [] {
      var front, w := windows[..|windows| - 1], windows[|windows| - 1];
      assert windows == front + [w];
      BurnRateTableNoUser(mrs, front, budget);
      var rates := mrs.AlertingBurnRates(front, budget);
      if IsAlertWindow(w) {
        BurnRateWindow(mrs, w, budget);
        AlertWindowNamed(w);
        assert (rates + [mrs.BurnRateRule(w, budget)])[..|rates|] == rates;
      } else {
        assert rates + [] == rates;
      }
    }
  }

  lemma BurnRateWindow(mrs: MonitoringRuleSet, w: string, budget: real)
    ensures var rule := mrs.BurnRateRule(w, budget);
      && "window" in rule.labels
      && ("window" !in UserLabels(mrs.slo.meta.labels) ==> rule.labels["window"] == w)
      && ("window" in UserLabels(mrs.slo.meta.labels) ==>
            rule.labels["window"] == UserLabels(mrs.slo.meta.labels)["window"])
  {
    hide MonitoringRuleSet.BurnRateRule, UserLabels, MonitoringRuleSet.RuleLabels;
    RuleOfKind(mrs, BurnRate, w, budget);
    RuleWindow(mrs, w);
  }

  lemma AlertWindowNamed(w: string)
    ensures IsAlertWindow(w) ==> w != ""
  {
  }

  lemma {:induction false} BurnRateTableUser(mrs: MonitoringRuleSet, windows: seq<string>, budget: real)
    requires "window" in UserLabels(mrs.slo.meta.labels)
    ensures forall w | w in BurnRateTable(mrs.AlertingBurnRates(windows, budget)) ::
      w == UserLabels(mrs.slo.meta.labels)["window"]
  {
    hide MonitoringRuleSet.BurnRateRule, UserLabels, IsAlertWindow;
    if windows != [] {
      var front, w := windows[..|windows| - 1], windows[|windows| - 1];
      BurnRateTableUser(mrs, front, budget);
      var rates := mrs.AlertingBurnRates(front, budget);
      if IsAlertWindow(w) {
        BurnRateWindow(mrs, w, budget);
        AlertWindowNamed(w);
        assert (rates + [mrs.BurnRateRule(w, budget)])[..|rates|] == rates;
      } else {
        assert rates + [] == rates;
      }
    }
  }

  lemma {:induction false} NoAlerts(
    mrs: MonitoringRuleSet, cfg: Config, table: map<string, Rule>, alerts: seq<AlertSpec>)
    requires forall a | a in alerts :: !(a.short in table && a.long in table)
    ensures mrs.AlertRules(cfg, table, alerts) == []
  {
    if alerts != [] {
      NoAlerts(mrs, cfg, table, alerts[..|alerts| - 1]);
    }
  }

  lemma {:induction false} EveryAlert(
    mrs: MonitoringRuleSet, cfg: Config, table: map<string, Rule>, alerts: seq<AlertSpec>)
    requires forall a | a in alerts :: a.short in table && a.long in table
    ensures |mrs.AlertRules(cfg, table, alerts)| == |alerts|
    ensures forall i | 0 <= i < |alerts| ::
      mrs.AlertRules(cfg, table, alerts)[i] == mrs.AlertRule(cfg, table, alerts[i])
  {
    hide MonitoringRuleSet.AlertRule;
    if alerts != [] {
      EveryAlert(mrs, cfg, table, alerts[..|alerts| - 1]);
    }
  }

  lemma AlertPairs(a: AlertSpec)
    requires a in ALERTS
    ensures IsAlertWindow(a.short) && IsAlertWindow(a.long) && a.short != a.long
  {
    assert |"5m"| == 2 && |"30m"| == 3 && "5m" != "1h" && |"24h"| == 3 && |"2h"| == 2 && "6h" != "3d" && |"6h"| == 2;
  }

  /**
   With alerting on, the alert group has exactly the four specified window pairs in order, each over
   the two windows' burn-rate rules; a user label keyed `window` leaves it exactly empty.
   */
  lemma AlertsAllOrNothing(mrs: MonitoringRuleSet, cfg: Config, budget: real)
    ensures var rules := mrs.AlertGroup(cfg, budget).rules;
      if "window" in UserLabels(mrs.slo.meta.labels) then rules == []
      else
        && |rules| == 4
        && forall i | 0 <= i < 4 ::
             rules[i] == mrs.TwoWindowAlert(cfg, mrs.BurnRateRule(ALERTS[i].short, budget),
                                            mrs.BurnRateRule(ALERTS[i].long, budget), ALERTS[i].severity)
  {
    hide MonitoringRuleSet.BurnRateRule, MonitoringRuleSet.TwoWindowAlert, MonitoringRuleSet.AlertRule, UserLabels,
      MonitoringRuleSet.Windows, IsAlertWindow, BurnRateTable, MonitoringRuleSet.AlertRules;
    var ws := mrs.Windows();
    var table := BurnRateTable(mrs.AlertingBurnRates(ws, budget));
    if "window" in UserLabels(mrs.slo.meta.labels) {
      BurnRateTableUser(mrs, ws, budget);
      forall a | a in ALERTS ensures !(a.short in table && a.long in table) {
        AlertPairs(a);
      }
      NoAlerts(mrs, cfg, table, ALERTS);
    } else {
      BurnRateTableNoUser(mrs, ws, budget);
      forall a | a in ALERTS
        ensures a.short in table && a.long in table
        ensures mrs.AlertRule(cfg, table, a)
             == mrs.TwoWindowAlert(cfg, mrs.BurnRateRule(a.short, budget), mrs.BurnRateRule(a.long, budget), a.severity)
      {
        AlertPairs(a);
        AlertWindowsPresent(mrs, a.short);
        AlertWindowsPresent(mrs, a.long);
        AlertFromTable(mrs, cfg, table, a, budget);
      }
      EveryAlert(mrs, cfg, table, ALERTS);
    }
  }

  lemma AlertWindowsPresent(mrs: MonitoringRuleSet, w: string)
    requires IsAlertWindow(w)
    ensures w in mrs.Windows()
  {
    WindowsInOrder(mrs);
  }

  lemma AlertFromTable(mrs: MonitoringRuleSet, cfg: Config, table: map<string, Rule>, a: AlertSpec, budget: real)
    requires a.short in table && table[a.short] == mrs.BurnRateRule(a.short, budget)
    requires a.long in table && table[a.long] == mrs.BurnRateRule(a.long, budget)
    ensures mrs.AlertRule(cfg, table, a)
         == mrs.TwoWindowAlert(cfg, mrs.BurnRateRule(a.short, budget), mrs.BurnRateRule(a.long, budget), a.severity)
  {
    BurnRateValid(mrs, a.short, budget);
    BurnRateValid(mrs, a.long, budget);
    hide MonitoringRuleSet.BurnRateRule, MonitoringRuleSet.TwoWindowAlert, IsValidRule;
  }

  lemma BurnRateValid(mrs: MonitoringRuleSet, w: string, budget: real)
    ensures IsValidRule(mrs.BurnRateRule(w, budget))
  {
    hide PrintSelector, PrintFixed, MonitoringRuleSet.RatioRule, MonitoringRuleSet.RuleLabels;
    var rule := mrs.BurnRateRule(w, budget);
    assert |BURN_RATE_RECORD| == 27;
    assert rule.expr.Quotient?;
    QuotientShown(rule.expr);
  }

  lemma QuotientShown(e: Expr)
    requires e.Quotient?
    ensures Render(e) != ""
  {
    assert |Render(e)| >= 3;
  }
}
