/**
 Failure-free passes of the SLO controller short of the usual course: deletion, a missing datasource, a
 missing SLI, no SLI at all, and an SLO that does not compile.
 */
module SloOutcomes {
  import opened Text
  import opened Selectors
  import opened Api
  import opened RuleCompiler
  import opened EmittedRules
  import opened Conditions
  import opened MimirTranslation
  import opened ObjectStore
  import opened Cluster
  import opened SloController
  import opened SloConvergence

  /** An SLO past its first pass. */
  predicate Admitted(w: World)
  {
    w.slo.Some? && !w.slo.value.meta.deleting && "finalizer.slo.osko.dev" in w.slo.value.meta.finalizers
  }

  /** The pass reports the SLO as not ready, ends with this error, and does nothing else. */
  predicate ReportsNotReady(w: World, end: (Outcome, World), message: string, kind: ErrorKind)
    requires w.slo.Some?
  {
    && end.0 == Failed(kind) && end.1.slo.Some? && NotReady(w.slo.value, end.1.slo.value, message, w.now)
    && end.1 == w.(slo := end.1.slo, clock := end.1.clock)
  }

  /** An SLO being deleted loses the finalizer, and nothing else; without other finalizers it goes. */
  lemma DeletedSloReleased(cfg: Config, w: World)
    requires w.slo.Some? ==> w.slo.value.meta.deleting
    ensures var (outcome, v) := Run(cfg, GetSlo, w);
      && outcome == Settled && v == w.(slo := v.slo, clock := v.clock)
      && (if w.slo.Some? && "finalizer.slo.osko.dev" in w.slo.value.meta.finalizers then
            var rest := Remove(w.slo.value.meta.finalizers, "finalizer.slo.osko.dev");
            v.slo == if rest == [] then None
                     else Some(w.slo.value.(meta := w.slo.value.meta.(finalizers := rest, version := w.clock + 1)))
          else v == w)
  {
    hide AdvanceResolving, AdvanceMakingProm, AdvanceMakingRule, AdvanceConcluding;
    if w.slo.Some? && SLO_FINALIZER in w.slo.value.meta.finalizers {
      assert Run(cfg, GetSlo, w) == Run(cfg, Unfinalize(w.slo.value), w);
      RemoveKeeps(w.slo.value.meta.finalizers, SLO_FINALIZER);
      OnlyRemoves(w.slo.value);
    }
  }

  lemma OnlyRemoves(slo: Slo)
    ensures !AddsFinalizer(slo.meta, WithoutFinalizer(slo, SLO_FINALIZER).meta)
  {
    RemoveKeeps(slo.meta.finalizers, SLO_FINALIZER);
  }

  /** A missing datasource: the Ready text turns False, the conditions stay, and the pass is to be repeated later. */
  lemma SourceMissingReported(cfg: Config, w: World)
    requires Admitted(w) && Get(w.slo.value.meta.annotations, "osko.dev/datasourceRef") !in w.sources
    ensures var (outcome, v) := Run(cfg, GetSlo, w);
      && outcome == Failed(DependencyNotReady) && v.slo.Some? && v == w.(slo := v.slo, clock := v.clock)
      && v.slo.value == w.slo.value.(status := SloStatus(w.slo.value.status.conditions, "False"),
                                     meta := w.slo.value.meta.(version := v.slo.value.meta.version))
  {
    hide AdvanceMakingProm, AdvanceMakingRule, AdvanceConcluding, PutSloStatus;
    var slo := w.slo.value;
    assert Run(cfg, GetSlo, w) == Run(cfg, GetSource(slo), w);
    assert Run(cfg, GetSource(slo), w) == Run(cfg, SourceMissing(slo), w);
    StatusStored(w, slo, SloStatus(slo.status.conditions, "False"));
    assert Ready(slo, "False") == slo.(status := SloStatus(slo.status.conditions, "False"));
    var v := PutSloStatus(w, Ready(slo, "False"), Fine).0;
    assert Run(cfg, SourceMissing(slo), w) == (Failed(DependencyNotReady), v);
  }

  /** The status update that reports an SLO as not ready. */
  lemma MarksFalse(cfg: Config, w: World, message: string, kind: ErrorKind)
    requires w.slo.Some? && !w.slo.value.meta.deleting
    ensures ReportsNotReady(w, Run(cfg, MarkFalse(w.slo.value, message, kind), w), message, kind)
  {
    hide AdvanceFinalizing, AdvanceResolving, AdvanceMakingProm, AdvanceMakingRule, PutSloStatus, WithCondition,
      Marked;
    var slo := w.slo.value;
    StatusStored(w, slo, WithCondition(slo.status, "Ready", "False", message, w.now));
    var v := PutSloStatus(w, WithReadyCondition(slo, "False", message, w.now), Fine).0;
    MarkedBy(slo, "False", message, w.now, v.slo.value.meta.version);
  }

  /** A missing SLI is waited for; an SLO that names none is given up. */
  lemma SliMissingReported(cfg: Config, w: World)
    requires Admitted(w) && Get(w.slo.value.meta.annotations, "osko.dev/datasourceRef") in w.sources
    requires
      if w.slo.value.spec.indicatorRef.Some? then w.slo.value.spec.indicatorRef.value !in w.slis
      else w.slo.value.spec.indicator.None?
    ensures ReportsNotReady(w, Run(cfg, GetSlo, w), "SLI Object not found",
      if w.slo.value.spec.indicatorRef.Some? then DependencyNotReady else Permanent)
  {
    hide AdvanceMakingProm, AdvanceMakingRule, AdvanceConcluding, ReportsNotReady;
    var slo := w.slo.value;
    var source := w.sources[Get(slo.meta.annotations, "osko.dev/datasourceRef")];
    assert Run(cfg, GetSlo, w) == Run(cfg, GetSource(slo), w);
    assert Run(cfg, GetSource(slo), w) == Run(cfg, ChooseSli(slo, source), w);
    MarksFalse(cfg, w, "SLI Object not found",
      if slo.spec.indicatorRef.Some? then DependencyNotReady else Permanent);
  }

  /** The SLI the SLO asks for is stored, an inline one under its own name or else the SLO's. */
  predicate SliStored(w: World, slo: Slo, sli: Sli)
  {
    if slo.spec.indicatorRef.Some? then Lookup(w.slis, slo.spec.indicatorRef.value) == Some(sli)
    else
      && slo.spec.indicator.Some? && sli.spec == slo.spec.indicator.value.spec
      && var name := slo.spec.indicator.value.name;
         Lookup(w.slis, if name != "" then name else slo.meta.name + "-sli") == Some(sli)
  }

  lemma RunToStored(cfg: Config, w: World, sli: Sli)
    requires Admitted(w) && Get(w.slo.value.meta.annotations, "osko.dev/datasourceRef") in w.sources
    requires SliStored(w, w.slo.value, sli)
    ensures var source := w.sources[Get(w.slo.value.meta.annotations, "osko.dev/datasourceRef")];
      Run(cfg, GetSlo, w) == Run(cfg, GetProm(w.slo.value, source, sli), w)
  {
    hide AdvanceMakingProm, AdvanceMakingRule, AdvanceConcluding;
    var slo := w.slo.value;
    var source := w.sources[Get(slo.meta.annotations, "osko.dev/datasourceRef")];
    assert Run(cfg, GetSlo, w) == Run(cfg, GetSource(slo), w);
    assert Run(cfg, GetSource(slo), w) == Run(cfg, ChooseSli(slo, source), w);
    assert Run(cfg, ChooseSli(slo, source), w) == Run(cfg, GetProm(slo, source, sli), w);
  }

  /** With no PrometheusRule yet and an SLO that does not compile: a panic without objectives, and else a report. */
  lemma UncompilableReported(cfg: Config, w: World, sli: Sli)
    requires Admitted(w) && Get(w.slo.value.meta.annotations, "osko.dev/datasourceRef") in w.sources
    requires SliStored(w, w.slo.value, sli) && w.prom.None? && Failing(cfg, w.slo.value, sli).Some?
    ensures
      if Failing(cfg, w.slo.value, sli) == Some(NoObjectives) then Run(cfg, GetSlo, w) == (Failed(Crashed), w)
      else ReportsNotReady(w, Run(cfg, GetSlo, w), "Failed to create new Prometheus Rule", Transient)
  {
    hide AdvanceFinalizing, AdvanceResolving, AdvanceMakingRule, AdvanceConcluding, ReportsNotReady, Failing,
      RuleGroups, SliStored;
    var slo := w.slo.value;
    var source := w.sources[Get(slo.meta.annotations, "osko.dev/datasourceRef")];
    RunToStored(cfg, w, sli);
    EmittedRules.CompilesIff(cfg, slo, sli);
    assert Run(cfg, GetProm(slo, source, sli), w) == Run(cfg, CompileProm(cfg, slo, sli), w);
    MarksFalse(cfg, w, "Failed to create new Prometheus Rule", Transient);
  }

  // ----- When a write fails -----

  /** The u-th call fails, and nothing else happens. */
  function FailsAt(u: nat, f: Fault): Environment
  {
    Environment((t: nat) => if t == u then f else Fine, (t: nat, w: World) => w)
  }

  lemma OneCall(cfg: Config, pc: Pc, w: World, u: nat, f: Fault, t: nat)
    requires !pc.Stop?
    ensures var (pc', v) := Advance(cfg, pc, w, if t == u then f else Fine);
      Pass(cfg, pc, w, FailsAt(u, f), t) == Pass(cfg, pc', v, FailsAt(u, f), t + 1)
  {
    hide Advance;
    var env := FailsAt(u, f);
    assert env.disturb(t, w) == w && env.fault(t) == if t == u then f else Fine;
  }

  /** From the failed call on, a pass is like a failure-free one. */
  lemma {:induction false} ThenCalm(cfg: Config, pc: Pc, w: World, u: nat, f: Fault, t: nat)
    requires t > u
    ensures var end := Pass(cfg, pc, w, FailsAt(u, f), t); (end.outcome, end.world) == Run(cfg, pc, w)
    decreases Stage(pc)
  {
    hide Advance;
    if !pc.Stop? {
      OneCall(cfg, pc, w, u, f, t);
      AdvanceProgresses(cfg, pc, w, Fine);
      ThenCalm(cfg, Advance(cfg, pc, w, Fine).0, Advance(cfg, pc, w, Fine).1, u, f, t + 1);
    }
  }

  /** What a failing creation leaves of a slot that was empty. */
  predicate Attempted<S(==), T(==)>(slot: Slot<S, T>, o: Object<S, T>, f: Fault)
  {
    if f == ReplyLost then slot.Some? && slot.value.spec == o.spec && slot.value.meta.owners == o.meta.owners
    else slot.None?
  }

  /** A failing creation of the PrometheusRule, whether or not it took effect, is reported on the SLO. */
  lemma PromCreationFails(cfg: Config, w: World, p: PrometheusRule, f: Fault, t: nat)
    requires f != Fine && w.slo.Some? && !w.slo.value.meta.deleting
    requires w.prom.None? && p.meta.name != "" && p.meta.version <= w.clock
    ensures var end := Pass(cfg, MakeProm(w.slo.value, p), w, FailsAt(t, f), t); var v := end.world;
      && end.outcome == Failed(Transient) && Attempted(v.prom, p, f)
      && v.slo.Some? && NotReady(w.slo.value, v.slo.value, "Failed to create Prometheus Rule", w.now)
      && v == w.(prom := v.prom, slo := v.slo, clock := v.clock)
  {
    hide NotReady, PutSloStatus, Run, Pass;
    var slo := w.slo.value;
    OneCall(cfg, MakeProm(slo, p), w, t, f, t);
    var v := CreateProm(w, p, f).0;
    ThenCalm(cfg, PromFailed(slo, p), v, t, f, t + 1);
    PromStatusFails(cfg, v, slo, p);
    MarksFalse(cfg, v, "Failed to create Prometheus Rule", Transient);
  }

  lemma PromStatusFails(cfg: Config, w: World, slo: Slo, p: PrometheusRule)
    requires w.prom.Some? ==> w.prom.value.meta.version != p.meta.version
    ensures Run(cfg, PromFailed(slo, p), w)
         == Run(cfg, MarkFalse(slo, "Failed to create Prometheus Rule", Transient), w)
  {
    hide AdvanceFinalizing, AdvanceResolving, AdvanceMakingRule, AdvanceConcluding;
    assert PutPromStatus(w, p, Fine).0 == w && !PutPromStatus(w, p, Fine).1.Done?;
  }

  /** One of the MimirRule is not: the SLO keeps the status it had, and the pass is to be repeated. */
  lemma RuleCreationFails(cfg: Config, w: World, m: MimirRule, f: Fault, t: nat)
    requires f != Fine && w.slo.Some? && !w.slo.value.meta.deleting
    requires w.rule.None? && m.meta.name != ""
    ensures var end := Pass(cfg, MakeRule(w.slo.value, m), w, FailsAt(t, f), t); var v := end.world;
      && end.outcome == Failed(Transient) && Attempted(v.rule, m, f)
      && v == w.(rule := v.rule, clock := v.clock)
  {
    hide PutSloStatus, Pass;
    var slo := w.slo.value;
    OneCall(cfg, MakeRule(slo, m), w, t, f, t);
    var v := CreateRule(w, m, f).0;
    ThenCalm(cfg, RuleFailed(slo), v, t, f, t + 1);
    StatusStored(v, slo, slo.status);
    assert slo.(status := slo.status) == slo;
    assert Run(cfg, RuleFailed(slo), v) == (Failed(Transient), v);
  }

  /** Only if the status refresh that follows fails too is the SLO marked as not ready. */
  lemma RuleReportFails(cfg: Config, w: World, f: Fault, t: nat)
    requires f != Fine && w.slo.Some? && !w.slo.value.meta.deleting
    ensures var end := Pass(cfg, RuleFailed(w.slo.value), w, FailsAt(t, f), t); var v := end.world;
      && end.outcome == Failed(Transient)
      && v.slo.Some? && NotReady(w.slo.value, v.slo.value, "Failed to create Mimir Rule", w.now)
      && v == w.(slo := v.slo, clock := v.clock)
  {
    hide NotReady, Run, Pass;
    var slo := w.slo.value;
    OneCall(cfg, RuleFailed(slo), w, t, f, t);
    assert slo.(status := slo.status) == slo;
    assert PutSloStatus(w, slo, f).0 == w;
    ThenCalm(cfg, MarkFalse(slo, "Failed to create Mimir Rule", Transient), w, t, f, t + 1);
    MarksFalse(cfg, w, "Failed to create Mimir Rule", Transient);
  }

  /** A failing look for the inline SLI, or a failing write of it, is reported on the SLO. */
  lemma InlineSliFails(cfg: Config, w: World, source: Datasource, indicator: Indicator, f: Fault, t: nat, pc: Pc)
    requires f != Fine && w.slo.Some? && !w.slo.value.meta.deleting
    requires
      || pc == GetInline(w.slo.value, source, indicator) || pc == CreateInline(w.slo.value, source, indicator)
      || (pc.UpdateInline? && pc == UpdateInline(w.slo.value, source, indicator, pc.sli))
    ensures var end := Pass(cfg, pc, w, FailsAt(t, f), t); var v := end.world;
      && end.outcome == Failed(Transient)
      && v.slo.Some? && NotReady(w.slo.value, v.slo.value, "Failed to create inline SLI", w.now)
      && v == w.(slis := v.slis, slo := v.slo, clock := v.clock)
      && (pc.GetInline? || f == Dropped ==> v.slis == w.slis)
  {
    hide NotReady, Run, Pass, Created, Replaced, NewInlineSli, InlineName, AdvanceFinalizing, AdvanceMakingProm,
      AdvanceMakingRule, AdvanceConcluding;
    OneCall(cfg, pc, w, t, f, t);
    var v := Advance(cfg, pc, w, f).1;
    NothingStored(w);
    ThenCalm(cfg, InlineFailed(w.slo.value), v, t, f, t + 1);
    MarksFalse(cfg, v, "Failed to create inline SLI", Transient);
  }

  lemma NothingStored(w: World)
    ensures forall name :: Stored(w.slis, name, Lookup(w.slis, name)) == w.slis
  {
    forall name
      ensures Stored(w.slis, name, Lookup(w.slis, name)) == w.slis
    {
      assert name in w.slis ==> w.slis[name := w.slis[name]] == w.slis;
      assert name !in w.slis ==> w.slis - {name} == w.slis;
    }
  }

  // ----- When a look fails -----

  /**
   A failing look for the PrometheusRule is taken for having found an empty one.  Without a MimirRule the one built
   from it has no name and is refused: an error, and nothing written.  With one the SLO is marked ready, whether
   or not there is a PrometheusRule.
   */
  lemma PromLookFails(cfg: Config, w: World, source: Datasource, sli: Sli, f: Fault, t: nat)
    requires f != Fine && w.slo.Some? && !w.slo.value.meta.deleting
    ensures var end := Pass(cfg, SloController.Pc.GetProm(w.slo.value, source, sli), w, FailsAt(t, f), t);
      if w.rule.None? then end.outcome == Failed(Transient) && end.world == w
      else
        && end.outcome == Settled && end.world.prom == w.prom && end.world.rule == w.rule
        && end.world.slo.Some? && Marked(w.slo.value, end.world.slo.value, "True", "PrometheusRule created", w.now)
  {
    hide Marked, Run, Pass, NewMimirRule, ConcludedStatus, PutSloStatus, AfterRule;
    var slo := w.slo.value;
    OneCall(cfg, SloController.Pc.GetProm(slo, source, sli), w, t, f, t);
    ThenCalm(cfg, SloController.Pc.GetRule(slo, source, NO_PROM), w, t, f, t + 1);
    if w.rule.None? {
      Nameless(cfg, w, source);
    } else {
      assert Run(cfg, SloController.Pc.GetRule(slo, source, NO_PROM), w) == Run(cfg, AfterRule(slo), w) by {
        RunsOn(cfg, SloController.Pc.GetRule(slo, source, NO_PROM), w);
      }
      var v := RunConclude(cfg, w, slo);
      ConcludedMarks(slo, v.slo.value, w.now);
    }
  }

  lemma RunsOn(cfg: Config, pc: Pc, w: World)
    requires !pc.Stop?
    ensures var (pc', v) := Advance(cfg, pc, w, Fine); Run(cfg, pc, w) == Run(cfg, pc', v)
  {
    hide Advance;
  }

  lemma Nameless(cfg: Config, w: World, source: Datasource)
    requires w.slo.Some? && !w.slo.value.meta.deleting && w.rule.None?
    ensures Run(cfg, SloController.Pc.GetRule(w.slo.value, source, NO_PROM), w) == (Failed(Transient), w)
  {
    hide Run, PutSloStatus, ToMimirGroups;
    var slo := w.slo.value;
    var m := NewMimirRule(slo, NO_PROM, source.spec);
    RunsOn(cfg, SloController.Pc.GetRule(slo, source, NO_PROM), w);
    assert CreateRule(w, m, Fine) == (w, Invalid);
    RunsOn(cfg, MakeRule(slo, m), w);
    StatusStored(w, slo, slo.status);
    assert slo.(status := slo.status) == slo;
    RunsOn(cfg, RuleFailed(slo), w);
    RunStopped(cfg, Failed(Transient), w);
  }

  lemma RunStopped(cfg: Config, outcome: Outcome, w: World)
    ensures Run(cfg, Stop(outcome), w) == (outcome, w)
  {
  }
}
