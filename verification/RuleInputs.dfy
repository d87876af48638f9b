/** What the compiled groups depend on, and what of it they show. */
module RuleInputs {
  import opened Text
  import opened Selectors
  import opened FixedPoint
  import opened Api
  import opened RuleCompiler
  import opened RuleTable

  /** The same inputs except perhaps for the SLI's name: object bookkeeping, status and thresholds play no part. */
  predicate Alike(a: MonitoringRuleSet, b: MonitoringRuleSet)
  {
    && a.baseWindow == b.baseWindow && a.slo.spec == b.slo.spec && a.sli.spec.ratio == b.sli.spec.ratio
    && a.slo.meta.name == b.slo.meta.name && a.slo.meta.namespace == b.slo.meta.namespace
    && a.slo.meta.labels == b.slo.meta.labels && a.slo.meta.annotations == b.slo.meta.annotations
  }

  lemma NameHidden(a: MonitoringRuleSet, b: MonitoringRuleSet, w: string)
    requires Alike(a, b)
    ensures a.sli.meta.name == b.sli.meta.name || "sli_name" in UserLabels(a.slo.meta.labels) ==>
        a.RuleLabels(w) == b.RuleLabels(w)
    ensures a.sli.meta.name != b.sli.meta.name && "sli_name" !in UserLabels(a.slo.meta.labels) ==>
        a.RuleLabels(w) != b.RuleLabels(w)
  {
    hide UserLabels;
    var user := UserLabels(a.slo.meta.labels);
    if "sli_name" in user {
      assert a.BaseLabels(w) - {"sli_name"} == b.BaseLabels(w) - {"sli_name"};
      forall k | k in a.RuleLabels(w)
        ensures k in b.RuleLabels(w) && a.RuleLabels(w)[k] == b.RuleLabels(w)[k]
      {
        if k !in user { assert k in a.BaseLabels(w) - {"sli_name"}; }
      }
    } else {
      assert a.RuleLabels(w)["sli_name"] == a.sli.meta.name && b.RuleLabels(w)["sli_name"] == b.sli.meta.name;
    }
  }

  /** Rules are alike when the ratio metric and the labels are. */
  lemma SameRule(a: MonitoringRuleSet, b: MonitoringRuleSet, kind: Kind, w: string, budget: real)
    requires Alike(a, b) && a.RuleLabels(w) == b.RuleLabels(w)
    ensures a.RuleOf(kind, w, budget) == b.RuleOf(kind, w, budget)
  {
    hide MonitoringRuleSet.RuleLabels, PrintSelector, PrintFixed;
  }

  lemma SameRecording(a: MonitoringRuleSet, b: MonitoringRuleSet, budget: real)
    requires Alike(a, b) && a.slo.spec.targets != []
    requires a.sli.meta.name == b.sli.meta.name || "sli_name" in UserLabels(a.slo.meta.labels)
    ensures a.RecordingGroups(budget) == b.RecordingGroups(budget)
  {
    hide MonitoringRuleSet.RuleLabels, MonitoringRuleSet.RuleOf, UserLabels, Unique;
    NameHidden(a, b, a.baseWindow);
    forall kind: Kind
      ensures a.Row(kind, a.Windows(), budget) == b.Row(kind, b.Windows(), budget)
    {
      forall i | 0 <= i < |a.Windows()|
        ensures a.RuleOf(kind, a.Windows()[i], budget) == b.RuleOf(kind, b.Windows()[i], budget)
      {
        NameHidden(a, b, a.Windows()[i]);
        SameRule(a, b, kind, a.Windows()[i], budget);
      }
    }
  }

  lemma SameAlerts(a: MonitoringRuleSet, b: MonitoringRuleSet, cfg: Config, budget: real)
    requires Alike(a, b)
    requires a.sli.meta.name == b.sli.meta.name || "window" in UserLabels(a.slo.meta.labels)
    ensures a.AlertGroup(cfg, budget) == b.AlertGroup(cfg, budget)
  {
    hide MonitoringRuleSet.RuleLabels, MonitoringRuleSet.BurnRateRule, UserLabels, MonitoringRuleSet.Windows,
      MonitoringRuleSet.AlertRules, MonitoringRuleSet.AlertingBurnRates;
    AlertsAllOrNothing(a, cfg, budget);
    AlertsAllOrNothing(b, cfg, budget);
    if "window" !in UserLabels(a.slo.meta.labels) {
      forall i | 0 <= i < 4
        ensures a.BurnRateRule(ALERTS[i].short, budget) == b.BurnRateRule(ALERTS[i].short, budget)
        ensures a.BurnRateRule(ALERTS[i].long, budget) == b.BurnRateRule(ALERTS[i].long, budget)
      {
        SameBurnRate(a, b, ALERTS[i].short, budget);
        SameBurnRate(a, b, ALERTS[i].long, budget);
      }
      assert a.AlertGroup(cfg, budget).rules == b.AlertGroup(cfg, budget).rules;
    }
  }

  lemma SameBurnRate(a: MonitoringRuleSet, b: MonitoringRuleSet, w: string, budget: real)
    requires Alike(a, b) && a.sli.meta.name == b.sli.meta.name
    ensures a.BurnRateRule(w, budget) == b.BurnRateRule(w, budget)
  {
    hide MonitoringRuleSet.RuleLabels, MonitoringRuleSet.BurnRateRule;
    NameHidden(a, b, w);
    SameRule(a, b, BurnRate, w, budget);
    assert a.RuleOf(BurnRate, w, budget) == a.BurnRateRule(w, budget);
    assert b.RuleOf(BurnRate, w, budget) == b.BurnRateRule(w, budget);
  }

  lemma SameGroups(a: MonitoringRuleSet, b: MonitoringRuleSet, cfg: Config, budget: real)
    requires Alike(a, b) && a.sli.meta.name == b.sli.meta.name && a.slo.spec.targets != []
    ensures a.Groups(cfg, budget) == b.Groups(cfg, budget)
  {
    hide MonitoringRuleSet.RecordingGroups, MonitoringRuleSet.AlertGroup, UserLabels;
    SameRecording(a, b, budget);
    SameAlerts(a, b, cfg, budget);
  }

  /** Bookkeeping in the SLO and SLI objects does not change the rules. */
  lemma SameRuleGroups(cfg: Config, slo: Slo, slo': Slo, sli: Sli, sli': Sli)
    requires slo'.spec == slo.spec && slo'.meta.name == slo.meta.name && slo'.meta.namespace == slo.meta.namespace
    requires slo'.meta.labels == slo.meta.labels && slo'.meta.annotations == slo.meta.annotations
    requires sli'.spec == sli.spec && sli'.meta.name == sli.meta.name
    ensures RuleGroups(cfg, slo', sli') == RuleGroups(cfg, slo, sli)
  {
    hide MonitoringRuleSet.Groups, IsPrometheusSource;
    var a, b := MonitoringRuleSet(slo, sli, BaseWindow(cfg, slo)), MonitoringRuleSet(slo', sli', BaseWindow(cfg, slo'));
    assert a.CheckedTarget(cfg) == b.CheckedTarget(cfg);
    if a.CheckedTarget(cfg).Success? {
      SameGroups(a, b, cfg, 1.0 - a.CheckedTarget(cfg).value);
    }
  }
}
