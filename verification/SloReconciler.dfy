/**
 The SLO reconciler as written, each method proved to end where the step machine ends from the same
 position, under any faults and any changes others make between its calls.
 */
module SloReconciler {
  import opened Text
  import opened Api
  import opened RuleCompiler
  import opened Conditions
  import opened MimirTranslation
  import opened ObjectStore
  import opened Cluster
  import opened SloController
  import opened ApiServer

  class Reconciler {
    const cfg: Config

    constructor (cfg: Config)
      ensures this.cfg == cfg
    {
      this.cfg := cfg;
    }

    /** Where the step machine ends from `pc` in the server's present state. */
    ghost function Ends(server: Server, pc: Pc): PassEnd
      reads server
    {
      Pass(cfg, pc, server.world, server.env, server.calls)
    }

    ghost function Ended(server: Server, outcome: Outcome): PassEnd
      reads server
    {
      Ends(server, Stop(outcome))
    }

    method Reconcile(server: Server) returns (outcome: Outcome)
      modifies server
      ensures PassEnd(outcome, server.world, server.calls) == old(Ends(server, GetSlo))
    {
      outcome := Begin(server);
      assert Ended(server, outcome) == PassEnd(outcome, server.world, server.calls);
    }

    method Begin(server: Server) returns (outcome: Outcome)
      modifies server
      ensures Ended(server, outcome) == old(Ends(server, GetSlo))
    {
      var found := server.GetSlo();
      if found.Absent? { return Settled; }
      if found.Unreadable? { return Failed(Transient); }
      var slo := found.obj;
      assert old(Ends(server, GetSlo)) == Ends(server, ExamineSlo(slo));
      if slo.meta.deleting {
        if SLO_FINALIZER in slo.meta.finalizers {
          var reply := server.UpdateSlo(WithoutFinalizer(slo, SLO_FINALIZER));
          return if reply.Done? then Settled else Failed(Plain);
        }
        return Settled;
      }
      if SLO_FINALIZER !in slo.meta.finalizers {
        var reply := server.UpdateSlo(WithFinalizer(slo, SLO_FINALIZER));
        return if reply.Done? then RequeueNow else Failed(Plain);
      }
      outcome := WithSlo(server, slo);
    }

    method WithSlo(server: Server, slo: Slo) returns (outcome: Outcome)
      modifies server
      ensures Ended(server, outcome) == old(Ends(server, GetSource(slo)))
    {
      hide ChooseSli;
      var found := server.GetSource(Get(slo.meta.annotations, "osko.dev/datasourceRef"));
      if found.Absent? {
        assert old(Ends(server, GetSource(slo))) == Ends(server, SourceMissing(slo));
        var reply := server.UpdateSloStatus(Ready(slo, "False"));
        return Failed(if reply.Done? then DependencyNotReady else Transient);
      }
      if found.Unreadable? { return Failed(Transient); }
      assert old(Ends(server, GetSource(slo))) == Ends(server, ChooseSli(slo, found.obj));
      outcome := WithSource(server, slo, found.obj);
    }

    method WithSource(server: Server, slo: Slo, source: Datasource) returns (outcome: Outcome)
      modifies server
      ensures Ended(server, outcome) == old(Ends(server, ChooseSli(slo, source)))
    {
      if slo.spec.indicatorRef.Some? {
        var name := slo.spec.indicatorRef.value;
        var found := server.GetSli(name);
        if found.Absent? {
          assert old(Ends(server, ChooseSli(slo, source)))
              == Ends(server, MarkFalse(slo, "SLI Object not found", DependencyNotReady));
          outcome := UpdateStatusFalse(server, slo, "SLI Object not found", DependencyNotReady);
          return;
        }
        if found.Unreadable? { return Failed(Transient); }
        assert old(Ends(server, ChooseSli(slo, source))) == Ends(server, GetProm(slo, source, found.obj));
        outcome := WithSli(server, slo, source, found.obj);
      } else if slo.spec.indicator.Some? {
        var sli, ok := CreateOrUpdateInlineSli(server, slo, source, slo.spec.indicator.value);
        if !ok {
          outcome := UpdateStatusFalse(server, slo, "Failed to create inline SLI", Transient);
          return;
        }
        outcome := WithSli(server, slo, source, sli);
      } else {
        outcome := UpdateStatusFalse(server, slo, "SLI Object not found", Permanent);
      }
    }

    method UpdateStatusFalse(server: Server, slo: Slo, message: string, kind: ErrorKind) returns (outcome: Outcome)
      modifies server
      ensures Ended(server, outcome) == old(Ends(server, MarkFalse(slo, message, kind)))
    {
      hide AdvanceFinalizing, AdvanceResolving, AdvanceMakingProm, AdvanceMakingRule;
      var reply := server.UpdateSloReady(slo, "False", message);
      return Failed(if reply.Done? then kind else Transient);
    }

    method CreateOrUpdateInlineSli(server: Server, slo: Slo, source: Datasource, indicator: Indicator)
      returns (sli: Sli, ok: bool)
      modifies server
      ensures old(Ends(server, GetInline(slo, source, indicator)))
           == Ends(server, if ok then GetProm(slo, source, sli) else InlineFailed(slo))
    {
      hide InlineFailed, NewInlineSli;
      sli := NO_SLI;
      var found := server.GetSli(InlineName(slo, indicator));
      if found.Unreadable? { return sli, false; }
      if found.Absent? {
        assert old(Ends(server, GetInline(slo, source, indicator)))
            == Ends(server, CreateInline(slo, source, indicator));
        var reply := server.CreateSli(NewInlineSli(slo, indicator));
        if !reply.Done? { return sli, false; }
        return reply.obj, true;
      }
      sli := found.obj;
      if sli.spec != indicator.spec {
        assert old(Ends(server, GetInline(slo, source, indicator)))
            == Ends(server, UpdateInline(slo, source, indicator, sli));
        var reply := server.UpdateSli(sli.(spec := indicator.spec));
        if !reply.Done? { return sli, false; }
        return reply.obj, true;
      }
      return sli, true;
    }

    method WithSli(server: Server, slo: Slo, source: Datasource, sli: Sli) returns (outcome: Outcome)
      modifies server
      ensures Ended(server, outcome) == old(Ends(server, GetProm(slo, source, sli)))
    {
      hide CompileProm;
      var found := server.GetProm();
      if found.Absent? {
        assert old(Ends(server, GetProm(slo, source, sli))) == Ends(server, CompileProm(cfg, slo, sli));
        outcome := CreateRules(server, slo, sli);
        return;
      }
      var prom := if found.Present? then found.obj else NO_PROM;
      assert old(Ends(server, GetProm(slo, source, sli))) == Ends(server, SloController.Pc.GetRule(slo, source, prom));
      outcome := WithProm(server, slo, source, prom);
    }

    method CreateRules(server: Server, slo: Slo, sli: Sli) returns (outcome: Outcome)
      modifies server
      ensures Ended(server, outcome) == old(Ends(server, CompileProm(cfg, slo, sli)))
    {
      hide AdvanceFinalizing, AdvanceResolving, AdvanceMakingProm, AdvanceMakingRule, AdvanceConcluding,
        CreatePrometheusRule;
      var compiled := CreatePrometheusRule(cfg, slo, sli);
      if compiled.Failure? {
        if compiled.error == NoObjectives { return Failed(Crashed); }
        outcome := UpdateStatusFalse(server, slo, "Failed to create new Prometheus Rule", Transient);
        return;
      }
      outcome := StoreProm(server, slo, compiled.value);
    }

    method StoreProm(server: Server, slo: Slo, prom: PrometheusRule) returns (outcome: Outcome)
      modifies server
      ensures Ended(server, outcome) == old(Ends(server, MakeProm(slo, prom)))
    {
      hide Attempt, CreateProm, PutProm, PutPromStatus, PutSloStatus, WithReadyCondition, Owned, AdvanceFinalizing,
        AdvanceResolving, AdvanceMakingRule, AdvanceConcluding;
      var created := server.CreateProm(prom);
      if !created.Done? {
        assert old(Ends(server, MakeProm(slo, prom))) == Ends(server, PromFailed(slo, prom));
        var status := server.UpdatePromStatus(prom);
        if status.Done? { return Failed(Transient); }
        assert old(Ends(server, MakeProm(slo, prom)))
            == Ends(server, MarkFalse(slo, "Failed to create Prometheus Rule", Transient));
        outcome := UpdateStatusFalse(server, slo, "Failed to create Prometheus Rule", Transient);
        return;
      }
      assert old(Ends(server, MakeProm(slo, prom))) == Ends(server, OwnProm(slo, created.obj));
      var owned := server.UpdateProm(Owned(created.obj, slo));
      if !owned.Done? { return Failed(Plain); }
      assert old(Ends(server, MakeProm(slo, prom))) == Ends(server, MarkReady(slo));
      var reply := server.UpdateSloStatus(Ready(slo, "True"));
      return if reply.Done? then Settled else Failed(Plain);
    }

    method WithProm(server: Server, slo: Slo, source: Datasource, prom: PrometheusRule) returns (outcome: Outcome)
      modifies server
      ensures Ended(server, outcome) == old(Ends(server, SloController.Pc.GetRule(slo, source, prom)))
    {
      hide AdvanceFinalizing, AdvanceResolving, AdvanceMakingProm, AdvanceConcluding, NewMimirRule, AfterRule;
      var found := server.GetRule();
      if found.Absent? {
        assert old(Ends(server, SloController.Pc.GetRule(slo, source, prom)))
            == Ends(server, MakeRule(slo, NewMimirRule(slo, prom, source.spec)));
        outcome := StoreRule(server, slo, NewMimirRule(slo, prom, source.spec));
        return;
      }
      assert old(Ends(server, SloController.Pc.GetRule(slo, source, prom))) == Ends(server, AfterRule(slo));
      outcome := WithRule(server, slo);
    }

    method StoreRule(server: Server, slo: Slo, rule: MimirRule) returns (outcome: Outcome)
      modifies server
      ensures Ended(server, outcome) == old(Ends(server, MakeRule(slo, rule)))
    {
      hide AdvanceFinalizing, AdvanceResolving, AdvanceMakingProm, AdvanceConcluding;
      var created := server.CreateRule(rule);
      if !created.Done? {
        assert old(Ends(server, MakeRule(slo, rule))) == Ends(server, RuleFailed(slo));
        var status := server.UpdateSloStatus(slo);
        if status.Done? { return Failed(Transient); }
        assert old(Ends(server, MakeRule(slo, rule)))
            == Ends(server, MarkFalse(slo, "Failed to create Mimir Rule", Transient));
        outcome := UpdateStatusFalse(server, slo, "Failed to create Mimir Rule", Transient);
        return;
      }
      assert old(Ends(server, MakeRule(slo, rule))) == Ends(server, OwnRule(slo, created.obj));
      outcome := AdoptRule(server, slo, created.obj);
    }

    method AdoptRule(server: Server, slo: Slo, rule: MimirRule) returns (outcome: Outcome)
      modifies server
      ensures Ended(server, outcome) == old(Ends(server, OwnRule(slo, rule)))
    {
      hide PutRule, PutRuleStatus, PutSloStatus, Owned, AdvanceFinalizing, AdvanceResolving, AdvanceMakingProm,
        AdvanceConcluding;
      var owned := server.UpdateRule(Owned(rule, slo));
      if !owned.Done? { return Failed(Transient); }
      assert old(Ends(server, OwnRule(slo, rule))) == Ends(server, ReadySlo(slo, owned.obj));
      var marked := server.UpdateSloStatus(Ready(slo, "True"));
      if !marked.Done? { return Failed(Transient); }
      assert old(Ends(server, OwnRule(slo, rule))) == Ends(server, ReadyRule(owned.obj));
      var reply := server.UpdateRuleStatus(owned.obj.(status := "True"));
      return if reply.Done? then Settled else Failed(Transient);
    }

    method WithRule(server: Server, slo: Slo) returns (outcome: Outcome)
      modifies server
      ensures Ended(server, outcome) == old(Ends(server, AfterRule(slo)))
    {
      hide CreateAlerting, PutAlerting, PutSloStatus, WithReadyCondition, Owned, AdvanceFinalizing,
        AdvanceResolving, AdvanceMakingProm, AdvanceMakingRule, NewAlerting;
      if WantsAlerting(slo) {
        var found := server.GetAlerting();
        if found.Unreadable? { return Failed(Transient); }
        if found.Absent? {
          assert old(Ends(server, AfterRule(slo))) == Ends(server, MakeAlerting(slo));
          var created := server.CreateAlerting(NewAlerting(slo));
          if !created.Done? { return Failed(Transient); }
          assert old(Ends(server, AfterRule(slo))) == Ends(server, OwnAlerting(slo, created.obj));
          var owned := server.UpdateAlerting(Owned(created.obj, slo));
          if !owned.Done? { return Failed(Transient); }
        }
      }
      assert old(Ends(server, AfterRule(slo))) == Ends(server, Conclude(slo));
      outcome := Finish(server, slo);
    }

    method Finish(server: Server, slo: Slo) returns (outcome: Outcome)
      modifies server
      ensures Ended(server, outcome) == old(Ends(server, Conclude(slo)))
    {
      hide AdvanceFinalizing, AdvanceResolving, AdvanceMakingProm, AdvanceMakingRule;
      var reply := server.UpdateSloReady(slo, "True", "PrometheusRule created");
      return if reply.Done? then Settled else Failed(Transient);
    }
  }
}
