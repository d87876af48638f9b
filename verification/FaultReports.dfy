/**
 Failing calls do not go unnoticed: a pass of a controller that does not end in an error met no failing call,
 but for the look-ups whose failures the controllers take for an answer.
 */
module FaultReports {
  import opened Text
  import opened Api
  import opened RuleCompiler
  import opened Conditions
  import opened MimirTranslation
  import opened ObjectStore
  import opened Cluster
  import SloController
  import PromController
  import MimirController

  /** Every call the pass makes from the t-th on goes well. */
  ghost predicate NoFaults(env: Environment, t: nat, end: nat)
  {
    forall k | t <= k < end :: env.fault(k) == Fine
  }

  // ----- The MimirRule controller -----

  lemma MimirStepReports(cfg: Config, pc: MimirController.Pc, w: World, f: Fault)
    requires f != Fine && !pc.Stop? && !Idle(pc)
    ensures var pc' := MimirController.Advance(cfg, pc, w, f).0; pc' == MimirController.RETRY || pc'.MarkFailed?
  {
    hide Replaced, StatusReplaced, NewMimirRule, ToMimirGroups, Pushes, MimirController.AfterOwners,
      MimirController.Examine;
  }

  /** Positions with an empty list of things left to do, which no pass comes to, make no call. */
  predicate Idle(pc: MimirController.Pc)
  {
    || (pc.GetOwner? && pc.refs == []) || (pc.Deleting? && pc.names == [])
    || (pc.Pushing? && pc.pushes == [])
  }

  lemma MimirNeverIdle(cfg: Config, pc: MimirController.Pc, w: World, f: Fault)
    requires !Idle(pc)
    ensures !Idle(MimirController.Advance(cfg, pc, w, f).0)
  {
    hide Replaced, StatusReplaced, NewMimirRule, ToMimirGroups, Pushes;
  }

  lemma {:induction false} MimirReports(cfg: Config, pc: MimirController.Pc, w: World, env: Environment, t: nat)
    requires !Idle(pc)
    ensures var end := MimirController.Pass(cfg, pc, w, env, t);
      && end.calls >= t
      && (end.outcome.Failed? || NoFaults(env, t, end.calls))
      && (pc.MarkFailed? ==> end.outcome.Failed?)
    decreases MimirController.Stage(pc), MimirController.Count(pc)
  {
    hide MimirController.Advance;
    if !pc.Stop? {
      var v, f := env.disturb(t, w), env.fault(t);
      MimirController.AdvanceProgresses(cfg, pc, v, f);
      MimirNeverIdle(cfg, pc, v, f);
      var (pc', v') := MimirController.Advance(cfg, pc, v, f);
      MimirReports(cfg, pc', v', env, t + 1);
      if f != Fine {
        MimirStepReports(cfg, pc, v, f);
      }
      if pc.MarkFailed? {
        MarkFailedFails(cfg, pc, v, f);
      }
    }
  }

  lemma MarkFailedFails(cfg: Config, pc: MimirController.Pc, w: World, f: Fault)
    requires pc.MarkFailed?
    ensures MimirController.Advance(cfg, pc, w, f).0 == MimirController.RETRY
  {
    hide StatusReplaced;
  }

  /** Whatever others do: a pass of the MimirRule controller that reports no error met no failing call. */
  lemma MimirFaultsReported(cfg: Config, w: World, env: Environment, t: nat)
    ensures var end := MimirController.Pass(cfg, MimirController.GetProm, w, env, t);
      end.outcome.Failed? || NoFaults(env, t, end.calls)
  {
    hide MimirController.Pass;
    MimirReports(cfg, MimirController.GetProm, w, env, t);
  }

  // ----- The PrometheusRule controller -----

  /** Positions past the look-ups. */
  predicate Late(pc: PromController.Pc)
  {
    !pc.GetProm? && !pc.GetOwner? && !pc.GetSli?
  }

  /** The second round of status refreshes, which reports an error either way. */
  predicate Lost(pc: PromController.Pc)
  {
    || (pc.TouchGet? && pc.again) || (pc.TouchPut? && pc.again) || (pc.Stop? && pc.outcome.Failed?)
  }

  lemma PromStepReports(cfg: Config, pc: PromController.Pc, w: World, f: Fault)
    requires Late(pc) && !pc.Stop?
    ensures var pc' := PromController.Advance(cfg, pc, w, f).0;
      && Late(pc')
      && (f != Fine ==> Lost(pc')) && (Lost(pc) ==> Lost(pc'))
  {
    hide Replaced, StatusReplaced, PromController.WithReady;
  }

  lemma {:induction false} PromReports(cfg: Config, pc: PromController.Pc, w: World, env: Environment, t: nat)
    requires Late(pc)
    ensures var end := PromController.Pass(cfg, pc, w, env, t);
      && end.calls >= t
      && (end.outcome.Failed? || NoFaults(env, t, end.calls))
      && (Lost(pc) ==> end.outcome.Failed?)
    decreases PromController.Stage(pc), PromController.Count(pc)
  {
    hide PromController.Advance;
    if !pc.Stop? {
      var v, f := env.disturb(t, w), env.fault(t);
      PromController.AdvanceProgresses(cfg, pc, v, f);
      PromStepReports(cfg, pc, v, f);
      PromReports(cfg, PromController.Advance(cfg, pc, v, f).0, PromController.Advance(cfg, pc, v, f).1, env, t + 1);
    }
  }

  /** The one failure that is not reported: looking up the SLI, the third call, after which the pass makes one more. */
  ghost predicate SliLookUp(env: Environment, t: nat, end: nat)
  {
    end == t + 4 && forall k | t <= k < end && k != t + 2 :: env.fault(k) == Fine
  }

  lemma PromLookUp(cfg: Config, pc: PromController.Pc, w: World, env: Environment, t: nat)
    requires pc.GetSli?
    ensures var end := PromController.Pass(cfg, pc, w, env, t);
      && end.calls > t
      && (end.outcome.Failed? || NoFaults(env, t, end.calls)
          || (end.calls == t + 2 && env.fault(t + 1) == Fine))
  {
    hide PromController.Derive, StatusReplaced, PromController.WithReady;
    var v, f := env.disturb(t, w), env.fault(t);
    var (pc', v') := PromController.Advance(cfg, pc, v, f);
    assert PromController.Pass(cfg, pc, w, env, t) == PromController.Pass(cfg, pc', v', env, t + 1);
    if pc.name in v.slis {
      DeriveIsLate(cfg, pc.prom, pc.slo, v.slis[pc.name]);
    }
    PromReports(cfg, pc', v', env, t + 1);
    if f != Fine {
      MissingReports(cfg, pc', v', env, t + 1);
    }
  }

  lemma DeriveIsLate(cfg: Config, p: PrometheusRule, slo: Slo, sli: Sli)
    ensures Late(PromController.Derive(cfg, p, slo, sli))
  {
    hide CreatePrometheusRule;
  }

  lemma MissingReports(cfg: Config, pc: PromController.Pc, w: World, env: Environment, t: nat)
    requires pc.SliMissing?
    ensures var end := PromController.Pass(cfg, pc, w, env, t);
      end.calls == t + 1 && (end.outcome.Failed? || env.fault(t) == Fine)
  {
    hide StatusReplaced, PromController.WithReady;
  }

  /** The same for the PrometheusRule controller, with the one exception. */
  lemma PromFaultsReported(cfg: Config, w: World, env: Environment, t: nat)
    ensures var end := PromController.Pass(cfg, PromController.GetProm, w, env, t);
      end.outcome.Failed? || NoFaults(env, t, end.calls) || SliLookUp(env, t, end.calls)
  {
    hide PromController.Derive, PromController.InlineSli, StatusReplaced, PromController.WithReady,
      PromController.SloRef;
    var v, f := env.disturb(t, w), env.fault(t);
    var (pc1, v1) := PromController.Advance(cfg, PromController.GetProm, v, f);
    assert PromController.Pass(cfg, PromController.GetProm, w, env, t) == PromController.Pass(cfg, pc1, v1, env, t + 1);
    if pc1.GetOwner? {
      SecondCall(cfg, pc1, v1, env, t + 1);
    } else {
      PromReports(cfg, pc1, v1, env, t + 1);
    }
  }

  lemma SecondIsLate(cfg: Config, pc: PromController.Pc, w: World, f: Fault)
    requires pc.GetOwner?
    ensures var pc' := PromController.Advance(cfg, pc, w, f).0;
      (Late(pc') || pc'.GetSli?) && (f != Fine ==> pc' == PromController.Stop(Failed(Plain)))
  {
    hide PromController.Derive, PromController.InlineSli;
    if w.slo.Some? && w.slo.value.spec.indicator.Some? {
      DeriveIsLate(cfg, pc.prom, w.slo.value, PromController.InlineSli(w.slo.value.spec.indicator.value));
    }
  }

  lemma SecondCall(cfg: Config, pc: PromController.Pc, w: World, env: Environment, t: nat)
    requires pc.GetOwner?
    ensures var end := PromController.Pass(cfg, pc, w, env, t);
      && end.calls > t
      && (end.outcome.Failed? || NoFaults(env, t, end.calls)
          || (end.calls == t + 3 && env.fault(t) == Fine && env.fault(t + 2) == Fine))
  {
    hide PromController.Derive, PromController.InlineSli, StatusReplaced, PromController.WithReady, Late;
    var v, f := env.disturb(t, w), env.fault(t);
    var (pc', v') := PromController.Advance(cfg, pc, v, f);
    SecondIsLate(cfg, pc, v, f);
    assert PromController.Pass(cfg, pc, w, env, t) == PromController.Pass(cfg, pc', v', env, t + 1);
    if pc'.GetSli? {
      PromLookUp(cfg, pc', v', env, t + 1);
    } else {
      PromReports(cfg, pc', v', env, t + 1);
    }
  }

  // ----- The SLO controller -----

  /** Looking for the PrometheusRule or the MimirRule. */
  predicate Looking(pc: SloController.Pc)
  {
    pc.GetProm? || pc.GetRule?
  }

  /** The only calls of the pass that fail are those two look-ups. */
  ghost predicate OnlyLooksFail(cfg: Config, pc: SloController.Pc, w: World, env: Environment, t: nat)
    decreases SloController.Stage(pc)
  {
    || pc.Stop?
    || (&& (env.fault(t) == Fine || Looking(pc))
        && var v := env.disturb(t, w);
           SloController.AdvanceProgresses(cfg, pc, v, env.fault(t));
           var (pc', v') := SloController.Advance(cfg, pc, v, env.fault(t));
           OnlyLooksFail(cfg, pc', v', env, t + 1))
  }

  /** Positions from which an error is certain. */
  predicate Erring(pc: SloController.Pc)
  {
    pc.MarkFalse? || pc.SourceMissing? || pc.PromFailed? || pc.RuleFailed? || (pc.Stop? && pc.outcome.Failed?)
  }

  lemma SloStepReports(cfg: Config, pc: SloController.Pc, w: World, f: Fault)
    requires !pc.Stop?
    ensures var pc' := SloController.Advance(cfg, pc, w, f).0;
      && (f != Fine && !Looking(pc) ==> Erring(pc'))
      && (Erring(pc) ==> Erring(pc'))
  {
    hide Created, Replaced, StatusReplaced, NewMimirRule, CreatePrometheusRule, SloController.NewAlerting,
      SloController.NewInlineSli, SloController.WithReadyCondition, SloController.WithOwner, SloController.Owned,
      WithFinalizer, WithoutFinalizer, Stored;
  }

  lemma {:induction false} SloReports(cfg: Config, pc: SloController.Pc, w: World, env: Environment, t: nat)
    ensures var end := SloController.Pass(cfg, pc, w, env, t);
      && (end.outcome.Failed? || OnlyLooksFail(cfg, pc, w, env, t))
      && (Erring(pc) ==> end.outcome.Failed?)
    decreases SloController.Stage(pc)
  {
    hide SloController.Advance;
    if !pc.Stop? {
      var v, f := env.disturb(t, w), env.fault(t);
      SloController.AdvanceProgresses(cfg, pc, v, f);
      SloStepReports(cfg, pc, v, f);
      SloReports(cfg, SloController.Advance(cfg, pc, v, f).0, SloController.Advance(cfg, pc, v, f).1, env, t + 1);
    }
  }

  /**
   A pass of the SLO controller that reports no error met no failing call, but for looking for the
   PrometheusRule or the MimirRule: a failure there is taken for having found it.
   */
  lemma SloFaultsReported(cfg: Config, w: World, env: Environment, t: nat)
    ensures SloController.Pass(cfg, SloController.GetSlo, w, env, t).outcome.Failed?
      || OnlyLooksFail(cfg, SloController.GetSlo, w, env, t)
  {
    hide SloController.Pass, OnlyLooksFail;
    SloReports(cfg, SloController.GetSlo, w, env, t);
  }

  // ----- With which error -----

  /** Positions from which a pass ends in a transient error. */
  predicate Transiently(pc: SloController.Pc)
  {
    || pc.PromFailed? || pc.RuleFailed? || (pc.MarkFalse? && pc.kind == Transient)
    || pc == SloController.Stop(Failed(Transient))
  }

  lemma TransientlyOn(cfg: Config, pc: SloController.Pc, w: World, f: Fault)
    requires Transiently(pc) && !pc.Stop?
    ensures Transiently(SloController.Advance(cfg, pc, w, f).0)
  {
    hide PutPromStatus, PutSloStatus, SloController.WithReadyCondition;
  }

  lemma {:induction false} TransientlyEnds(
    cfg: Config, pc: SloController.Pc, w: World, env: Environment, t: nat)
    requires Transiently(pc)
    ensures SloController.Pass(cfg, pc, w, env, t).outcome == Failed(Transient)
    decreases SloController.Stage(pc)
  {
    hide SloController.Advance;
    if !pc.Stop? {
      var v, f := env.disturb(t, w), env.fault(t);
      SloController.AdvanceProgresses(cfg, pc, v, f);
      TransientlyOn(cfg, pc, v, f);
      var (pc', v') := SloController.Advance(cfg, pc, v, f);
      TransientlyEnds(cfg, pc', v', env, t + 1);
    }
  }

  /** Errors of the finalizer writes, of owning the PrometheusRule and of the status after it are not classified. */
  predicate Unclassified(pc: SloController.Pc)
  {
    pc.Unfinalize? || pc.Finalize? || pc.OwnProm? || pc.MarkReady?
  }

  lemma SloFaultLeads(cfg: Config, pc: SloController.Pc, w: World, f: Fault)
    requires !pc.Stop? && !Looking(pc) && f != Fine
    ensures var pc' := SloController.Advance(cfg, pc, w, f).0;
      if Unclassified(pc) then pc' == SloController.Stop(Failed(Plain)) else Transiently(pc')
  {
    hide Created, Replaced, StatusReplaced, NewMimirRule, CreatePrometheusRule, SloController.NewAlerting,
      SloController.NewInlineSli, SloController.WithReadyCondition, SloController.WithOwner, SloController.Owned,
      WithFinalizer, WithoutFinalizer, Stored;
  }

  /**
   A failing call of the SLO controller ends the pass in a transient error, or in an unclassified one at the four
   places that return it as it is; the two looks aside.
   */
  lemma SloFaultKind(cfg: Config, pc: SloController.Pc, w: World, env: Environment, t: nat)
    requires !pc.Stop? && !Looking(pc) && env.fault(t) != Fine
    ensures SloController.Pass(cfg, pc, w, env, t).outcome
         == Failed(if Unclassified(pc) then Plain else Transient)
  {
    hide SloController.Advance;
    var v, f := env.disturb(t, w), env.fault(t);
    SloFaultLeads(cfg, pc, v, f);
    var (pc', v') := SloController.Advance(cfg, pc, v, f);
    assert SloController.Pass(cfg, pc, w, env, t) == SloController.Pass(cfg, pc', v', env, t + 1);
    if !Unclassified(pc) {
      TransientlyEnds(cfg, pc', v', env, t + 1);
    }
  }

  lemma RetryEnds(cfg: Config, pc: MimirController.Pc, w: World, env: Environment, t: nat)
    requires pc == MimirController.RETRY || pc.MarkFailed?
    ensures MimirController.Pass(cfg, pc, w, env, t).outcome == Failed(Transient)
  {
    hide MimirController.Advance;
    if pc.MarkFailed? {
      var v, f := env.disturb(t, w), env.fault(t);
      MarkFailedFails(cfg, pc, v, f);
      assert MimirController.Pass(cfg, pc, w, env, t)
          == MimirController.Pass(cfg, MimirController.RETRY, MimirController.Advance(cfg, pc, v, f).1, env, t + 1);
    }
  }

  /** One of the MimirRule controller is transient wherever it occurs. */
  lemma MimirFaultKind(cfg: Config, pc: MimirController.Pc, w: World, env: Environment, t: nat)
    requires !pc.Stop? && !Idle(pc) && env.fault(t) != Fine
    ensures MimirController.Pass(cfg, pc, w, env, t).outcome == Failed(Transient)
  {
    hide MimirController.Advance;
    var v, f := env.disturb(t, w), env.fault(t);
    MimirStepReports(cfg, pc, v, f);
    var (pc', v') := MimirController.Advance(cfg, pc, v, f);
    assert MimirController.Pass(cfg, pc, w, env, t) == MimirController.Pass(cfg, pc', v', env, t + 1);
    RetryEnds(cfg, pc', v', env, t + 1);
  }

  lemma PromFaultLeads(cfg: Config, pc: PromController.Pc, w: World, f: Fault)
    requires !pc.Stop? && !pc.GetSli? && f != Fine
    ensures var pc' := PromController.Advance(cfg, pc, w, f).0;
      if pc.NoIndicator? then pc' == PromController.Stop(Failed(Crashed)) else Plainly(pc')
  {
    hide Replaced, StatusReplaced, PromController.WithReady;
  }

  /** Positions from which a pass ends in an unclassified error. */
  predicate Plainly(pc: PromController.Pc)
  {
    || (pc.TouchGet? && pc.again) || (pc.TouchPut? && pc.again) || pc == PromController.Stop(Failed(Plain))
  }

  lemma PlainlyOn(cfg: Config, pc: PromController.Pc, w: World, f: Fault)
    requires Plainly(pc) && !pc.Stop?
    ensures Plainly(PromController.Advance(cfg, pc, w, f).0)
  {
    hide PutSloStatus;
  }

  lemma {:induction false} PlainlyEnds(cfg: Config, pc: PromController.Pc, w: World, env: Environment, t: nat)
    requires Plainly(pc)
    ensures PromController.Pass(cfg, pc, w, env, t).outcome == Failed(Plain)
    decreases PromController.Stage(pc), PromController.Count(pc)
  {
    hide PromController.Advance;
    if !pc.Stop? {
      var v, f := env.disturb(t, w), env.fault(t);
      PromController.AdvanceProgresses(cfg, pc, v, f);
      PlainlyOn(cfg, pc, v, f);
      var (pc', v') := PromController.Advance(cfg, pc, v, f);
      PlainlyEnds(cfg, pc', v', env, t + 1);
    }
  }

  /**
   One of the PrometheusRule controller is returned as it is, but for the look for the SLI, and for the status
   update of an SLO that names no SLI, after whose failure the controller panics.
   */
  lemma PromFaultKind(cfg: Config, pc: PromController.Pc, w: World, env: Environment, t: nat)
    requires !pc.Stop? && !pc.GetSli? && env.fault(t) != Fine
    ensures PromController.Pass(cfg, pc, w, env, t).outcome
         == Failed(if pc.NoIndicator? then Crashed else Plain)
  {
    hide PromController.Advance;
    var v, f := env.disturb(t, w), env.fault(t);
    PromFaultLeads(cfg, pc, v, f);
    var (pc', v') := PromController.Advance(cfg, pc, v, f);
    assert PromController.Pass(cfg, pc, w, env, t) == PromController.Pass(cfg, pc', v', env, t + 1);
    if !pc.NoIndicator? {
      PlainlyEnds(cfg, pc', v', env, t + 1);
    }
  }
}
