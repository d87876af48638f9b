/**
 The PrometheusRule controller derives the rules a second time.  Its copy of an inline indicator lacks
 the threshold metric and the default name, so the two derivations agree under an exact condition.
 */
module Agreement {
  import opened Text
  import opened Selectors
  import opened FixedPoint
  import opened Api
  import opened RuleCompiler
  import opened RuleTable
  import opened RuleInputs
  import opened ObjectStore
  import opened Cluster
  import SloController
  import opened PromController

  /** Whether the rules show nothing of the SLI's name, or the name is written out in the indicator. */
  predicate NamedAlike(slo: Slo, indicator: Indicator)
  {
    || indicator.name != ""
    || ("sli_name" in UserLabels(slo.meta.labels)
        && (Get(slo.meta.annotations, "osko.dev/magicAlerting") != "true" || "window" in UserLabels(slo.meta.labels)))
  }

  /** Where the name shows, the groups differ. */
  lemma NameShows(a: MonitoringRuleSet, b: MonitoringRuleSet, cfg: Config, budget: real)
    requires Alike(a, b) && a.sli.meta.name != b.sli.meta.name && a.slo.spec.targets != []
    requires "sli_name" !in UserLabels(a.slo.meta.labels)
      || (a.MagicAlerting() && "window" !in UserLabels(a.slo.meta.labels))
    ensures a.Groups(cfg, budget) != b.Groups(cfg, budget)
  {
    hide MonitoringRuleSet.RuleLabels, UserLabels, MonitoringRuleSet.AlertRules, MonitoringRuleSet.BurnRateRule,
      MonitoringRuleSet.Row, MonitoringRuleSet.AlertingBurnRates;
    if "sli_name" !in UserLabels(a.slo.meta.labels) {
      NameHidden(a, b, a.baseWindow);
      assert a.Groups(cfg, budget)[0].rules[0].labels != b.Groups(cfg, budget)[0].rules[0].labels;
    } else {
      AlertsAllOrNothing(a, cfg, budget);
      AlertsAllOrNothing(b, cfg, budget);
      assert a.Groups(cfg, budget)[6].rules[0].labels["sli_name"]
          != b.Groups(cfg, budget)[6].rules[0].labels["sli_name"];
    }
  }

  // ----- The two derivations -----

  /**
   When the SLO controller's derivation from the stored inline SLI succeeds, the PrometheusRule
   controller's equals it exactly if the total metric names its source type and the name does not matter;
   without a source type on the total metric it fails.
   */
  lemma InlineAgreementIff(cfg: Config, slo: Slo, indicator: Indicator, stored: Sli)
    requires stored.meta.name == SloController.InlineName(slo, indicator) && stored.spec == indicator.spec
    requires RuleGroups(cfg, slo, stored).Success?
    ensures RuleGroups(cfg, slo, InlineSli(indicator)) == RuleGroups(cfg, slo, stored)
      <==> indicator.spec.ratio.total.kind != "" && NamedAlike(slo, indicator)
    ensures RuleGroups(cfg, slo, InlineSli(indicator)).Success? <==> indicator.spec.ratio.total.kind != ""
    ensures RuleGroups(cfg, slo, InlineSli(indicator)).Failure? ==>
      RuleGroups(cfg, slo, InlineSli(indicator)) == Failure(UnsupportedSource)
  {
    hide MonitoringRuleSet.Groups, UserLabels;
    var a := MonitoringRuleSet(slo, stored, BaseWindow(cfg, slo));
    var b := MonitoringRuleSet(slo, InlineSli(indicator), BaseWindow(cfg, slo));
    SourceLost(indicator);
    if indicator.spec.ratio.total.kind != "" {
      var budget := 1.0 - a.CheckedTarget(cfg).value;
      assert b.CheckedTarget(cfg) == a.CheckedTarget(cfg);
      GroupsAgreeIff(a, b, cfg, indicator, budget);
    }
  }

  lemma SourceLost(indicator: Indicator)
    requires IsPrometheusSource(indicator.spec)
    ensures IsPrometheusSource(InlineSli(indicator).spec) <==> indicator.spec.ratio.total.kind != ""
  {
    if indicator.spec.ratio.total.kind == "" {
      assert ToLower(SourceKind(InlineSli(indicator).spec)) == "";
    }
  }

  lemma GroupsAgreeIff(a: MonitoringRuleSet, b: MonitoringRuleSet, cfg: Config, indicator: Indicator, budget: real)
    requires b == a.(sli := InlineSli(indicator)) && a.slo.spec.targets != []
    requires a.sli.meta.name == SloController.InlineName(a.slo, indicator) && a.sli.spec == indicator.spec
    ensures a.Groups(cfg, budget) == b.Groups(cfg, budget) <==> NamedAlike(a.slo, indicator)
  {
    hide UserLabels, MonitoringRuleSet.RecordingGroups, MonitoringRuleSet.AlertGroup;
    if indicator.name == "" {
      assert |a.sli.meta.name| >= 4;
    }
    if NamedAlike(a.slo, indicator) {
      SameRecording(a, b, budget);
      if a.MagicAlerting() {
        SameAlerts(a, b, cfg, budget);
      }
    } else {
      NameShows(a, b, cfg, budget);
    }
  }

  // ----- A pass over a freshly created PrometheusRule -----

  /** The SLI this controller would compile for the SLO. */
  function SecondSli(w: World, slo: Slo): Option<Sli>
  {
    if slo.spec.indicatorRef.Some? then Lookup(w.slis, slo.spec.indicatorRef.value)
    else if slo.spec.indicator.Some? then Some(InlineSli(slo.spec.indicator.value))
    else None
  }

  /** Whatever this controller can derive in this world are these groups. */
  ghost predicate OnlyDerives(cfg: Config, w: World, groups: seq<RuleGroup>)
  {
    w.slo.Some? && SecondSli(w, w.slo.value).Some? ==>
      RuleGroups(cfg, w.slo.value, SecondSli(w, w.slo.value).value).Success? ==>
        RuleGroups(cfg, w.slo.value, SecondSli(w, w.slo.value).value).value == groups
  }

  predicate Stores(w: World, groups: seq<RuleGroup>)
  {
    w.prom.Some? ==> w.prom.value.spec == groups
  }

  /** A position from which only these groups can be written. */
  ghost predicate Toward(cfg: Config, pc: Pc, w: World, groups: seq<RuleGroup>)
  {
    && Stores(w, groups)
    && (pc.GetProm? || pc.GetOwner? || pc.GetSli? ==> OnlyDerives(cfg, w, groups))
    && (pc.GetSli? ==> w.slo == Some(pc.slo) && pc.slo.spec.indicatorRef == Some(pc.name))
    && (pc.OverwriteGet? || pc.OverwritePut? ==> pc.derived.spec == groups)
  }

  lemma StepToward(cfg: Config, pc: Pc, w: World, f: Fault, groups: seq<RuleGroup>)
    requires Toward(cfg, pc, w, groups)
    ensures var (pc', v) := Advance(cfg, pc, w, f); Toward(cfg, pc', v, groups)
  {
    hide RuleGroups, StatusReplaced, InlineSli, WithReady, AddsFinalizer;
  }

  /** However its calls fare, a pass with nobody else about writes no other groups. */
  lemma {:induction false} PassKeepsGroups(
    cfg: Config, pc: Pc, w: World, env: Environment, t: nat, groups: seq<RuleGroup>)
    requires Toward(cfg, pc, w, groups) && forall k, v :: env.disturb(k, v) == v
    ensures Stores(Pass(cfg, pc, w, env, t).world, groups)
    decreases Stage(pc), Count(pc)
  {
    hide Advance, OnlyDerives;
    if !pc.Stop? {
      AdvanceProgresses(cfg, pc, w, env.fault(t));
      StepToward(cfg, pc, w, env.fault(t), groups);
      PassKeepsGroups(cfg, Advance(cfg, pc, w, env.fault(t)).0,
        Advance(cfg, pc, w, env.fault(t)).1, env, t + 1, groups);
    }
  }

  /** The stored SLI from which the SLO controller compiles. */
  function FirstSli(w: World, slo: Slo): Option<Sli>
  {
    if slo.spec.indicatorRef.Some? then Lookup(w.slis, slo.spec.indicatorRef.value)
    else if slo.spec.indicator.Some? then Lookup(w.slis, SloController.InlineName(slo, slo.spec.indicator.value))
    else None
  }

  /** A PrometheusRule as the SLO controller made it from the SLI as stored. */
  ghost predicate FreshlyMade(cfg: Config, w: World)
  {
    && w.slo.Some? && w.prom.Some? && FirstSli(w, w.slo.value).Some?
    && var slo := w.slo.value; var sli := FirstSli(w, slo).value;
    && RuleGroups(cfg, slo, sli) == Success(w.prom.value.spec)
    && (slo.spec.indicatorRef.None? ==>
          && sli.meta.name == SloController.InlineName(slo, slo.spec.indicator.value)
          && sli.spec == slo.spec.indicator.value.spec)
    && !w.prom.value.meta.deleting && !slo.meta.deleting
    && SloRef(w.prom.value.meta.owners).Some? && SloRef(w.prom.value.meta.owners).value.name == slo.meta.name
  }

  /** When the second pass overwrites what the first one made. */
  predicate Disagrees(slo: Slo)
  {
    && slo.spec.indicatorRef.None? && slo.spec.indicator.Some?
    && slo.spec.indicator.value.spec.ratio.total.kind != "" && !NamedAlike(slo, slo.spec.indicator.value)
  }

  /**
   Unless an unnamed inline indicator shows its name, a pass leaves the groups the SLO controller made,
   however its calls fare.
   */
  lemma SecondPassKeepsGroups(cfg: Config, w: World, env: Environment, t: nat)
    requires FreshlyMade(cfg, w) && !Disagrees(w.slo.value) && forall k, v :: env.disturb(k, v) == v
    ensures Stores(Pass(cfg, GetProm, w, env, t).world, w.prom.value.spec)
  {
    hide RuleGroups, Pass, NamedAlike, InlineSli, SloController.InlineName;
    var slo := w.slo.value;
    if slo.spec.indicatorRef.None? {
      InlineAgreementIff(cfg, slo, slo.spec.indicator.value, FirstSli(w, slo).value);
    }
    PassKeepsGroups(cfg, GetProm, w, env, t, w.prom.value.spec);
  }

  /** In that one case a failure-free pass writes different groups. */
  lemma SecondPassChangesGroups(cfg: Config, w: World, t: nat)
    requires FreshlyMade(cfg, w) && Disagrees(w.slo.value)
    ensures var v := Pass(cfg, GetProm, w, CALM, t).world; v.prom.Some? && v.prom.value.spec != w.prom.value.spec
  {
    hide RuleGroups, NamedAlike, InlineSli, SloController.InlineName, AddsFinalizer, PutSloStatus;
    var slo, p := w.slo.value, w.prom.value;
    var indicator := slo.spec.indicator.value;
    InlineAgreementIff(cfg, slo, indicator, FirstSli(w, slo).value);
    var derived := CreatePrometheusRule(cfg, slo, InlineSli(indicator)).value;
    CalmStep(cfg, GetProm, w, t);
    CalmStep(cfg, GetOwner(p, slo.meta.name), w, t + 1);
    CalmStep(cfg, OverwriteGet(derived, slo.meta.name, ATTEMPTS), w, t + 2);
    CalmStep(cfg, OverwritePut(derived, slo.meta.name, p, ATTEMPTS), w, t + 3);
    var v := Advance(cfg, OverwritePut(derived, slo.meta.name, p, ATTEMPTS), w, Fine).1;
    CalmTouchKeepsProm(cfg, TouchGet(slo.meta.name, ATTEMPTS, false), v, t + 4);
  }

  lemma CalmStep(cfg: Config, pc: Pc, w: World, t: nat)
    requires !pc.Stop?
    ensures var (pc', v) := Advance(cfg, pc, w, Fine); Pass(cfg, pc, w, CALM, t) == Pass(cfg, pc', v, CALM, t + 1)
  {
    hide Advance;
    assert CALM.disturb(t, w) == w && CALM.fault(t) == Fine;
  }

  lemma {:induction false} CalmTouchKeepsProm(cfg: Config, pc: Pc, w: World, t: nat)
    requires pc.TouchGet? || pc.TouchPut? || pc.Stop?
    ensures Pass(cfg, pc, w, CALM, t).world.prom == w.prom
    decreases Stage(pc), Count(pc)
  {
    hide Replaced, StatusReplaced;
    if !pc.Stop? {
      AdvanceProgresses(cfg, pc, w, Fine);
      CalmStep(cfg, pc, w, t);
      CalmTouchKeepsProm(cfg, Advance(cfg, pc, w, Fine).0, Advance(cfg, pc, w, Fine).1, t + 1);
    }
  }
}
