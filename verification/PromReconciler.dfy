/**
 The PrometheusRule reconciler as written, each method proved to end where the step machine ends from
 the same position, under any faults and any changes others make between its calls.
 */
module PromReconciler {
  import opened Text
  import opened Api
  import opened RuleCompiler
  import opened ObjectStore
  import opened Cluster
  import opened PromController
  import opened ApiServer

  class PrometheusRuleReconciler {
    const cfg: Config

    constructor (cfg: Config)
      ensures this.cfg == cfg
    {
      this.cfg := cfg;
    }

    /** Where the step machine ends from `pc` in the server's present state. */
    ghost function Ends(server: Server, pc: Pc): PassEnd
      reads server
    {
      Pass(cfg, pc, server.world, server.env, server.calls)
    }

    ghost function Ended(server: Server, outcome: Outcome): PassEnd
      reads server
    {
      Ends(server, Stop(outcome))
    }

    method Reconcile(server: Server) returns (outcome: Outcome)
      modifies server
      ensures PassEnd(outcome, server.world, server.calls) == old(Ends(server, GetProm))
    {
      outcome := Begin(server);
      assert Ended(server, outcome) == PassEnd(outcome, server.world, server.calls);
    }

    method Begin(server: Server) returns (outcome: Outcome)
      modifies server
      ensures Ended(server, outcome) == old(Ends(server, GetProm))
    {
      hide SloRef;
      var found := server.GetProm();
      if found.Absent? { return Settled; }
      if found.Unreadable? { return Failed(Plain); }
      var prom := found.obj;
      assert old(Ends(server, GetProm)) == Ends(server, ExamineProm(prom));
      var ref := FirstSloRef(prom.meta.owners);
      if ref.None? {
        if Get(prom.meta.labels, "osko.dev/manage") != "true" { return Settled; }
        outcome := ReportNoIndicator(server, NO_SLO);
        return;
      }
      outcome := WithOwner(server, prom, ref.value.name);
    }

    method FirstSloRef(refs: seq<OwnerRef>) returns (ref: Option<OwnerRef>)
      ensures ref == SloRef(refs)
    {
      for i := 0 to |refs|
        invariant SloRef(refs) == SloRef(refs[i..])
      {
        if refs[i].kind == "SLO" { return Some(refs[i]); }
        assert refs[i..][1..] == refs[i + 1..];
      }
      assert refs[|refs|..] == [];
      return None;
    }

    method WithOwner(server: Server, prom: PrometheusRule, name: string) returns (outcome: Outcome)
      modifies server
      ensures Ended(server, outcome) == old(Ends(server, GetOwner(prom, name)))
    {
      hide Derive, InlineSli;
      var found := server.GetSloNamed(name);
      if !found.Present? { return Failed(Plain); }
      var slo := found.obj;
      assert old(Ends(server, GetOwner(prom, name))) == Ends(server, ChooseSli(cfg, prom, slo));
      if slo.spec.indicatorRef.Some? {
        var sli := server.GetSli(slo.spec.indicatorRef.value);
        if !sli.Present? {
          assert old(Ends(server, GetOwner(prom, name))) == Ends(server, SliMissing(slo));
          var reply := server.UpdateSloReady(slo, "False", "SLI Object not found");
          return if reply.Done? then Settled else Failed(Plain);
        }
        assert old(Ends(server, GetOwner(prom, name))) == Ends(server, Derive(cfg, prom, slo, sli.obj));
        outcome := Refresh(server, prom, slo, sli.obj);
      } else if slo.spec.indicator.Some? {
        outcome := Refresh(server, prom, slo, InlineSli(slo.spec.indicator.value));
      } else {
        outcome := ReportNoIndicator(server, slo);
      }
    }

    method ReportNoIndicator(server: Server, slo: Slo) returns (outcome: Outcome)
      modifies server
      ensures Ended(server, outcome) == old(Ends(server, NoIndicator(slo)))
    {
      var reply := server.UpdateSloReady(slo, "False", "SLI Object not found");
      return if reply.Done? then Settled else Failed(Crashed);
    }

    method Refresh(server: Server, prom: PrometheusRule, slo: Slo, sli: Sli) returns (outcome: Outcome)
      modifies server
      ensures Ended(server, outcome) == old(Ends(server, Derive(cfg, prom, slo, sli)))
    {
      hide CreatePrometheusRule, Advance;
      var compiled := CreatePrometheusRule(cfg, slo, sli);
      if compiled.Failure? { return Failed(if compiled.error == NoObjectives then Crashed else Plain); }
      if prom == compiled.value { return Settled; }
      var ok := Overwrite(server, compiled.value, slo.meta.name);
      if !ok { return Failed(Plain); }
      var touched := Touch(server, slo.meta.name, false);
      if touched { return Settled; }
      touched := Touch(server, slo.meta.name, true);
      return Failed(Plain);
    }

    method Overwrite(server: Server, derived: PrometheusRule, name: string) returns (ok: bool)
      modifies server
      ensures old(Ends(server, OverwriteGet(derived, name, ATTEMPTS)))
           == if ok then Ends(server, TouchGet(name, ATTEMPTS, false)) else Ended(server, Failed(Plain))
    {
      hide AdvanceDeriving, PutProm;
      var tries := ATTEMPTS;
      while true
        invariant old(Ends(server, OverwriteGet(derived, name, ATTEMPTS)))
            == Ends(server, OverwriteGet(derived, name, tries))
        decreases tries
      {
        var p := server.GetProm();
        if !p.Present? { return false; }
        assert old(Ends(server, OverwriteGet(derived, name, ATTEMPTS)))
            == Ends(server, OverwritePut(derived, name, p.obj, tries));
        var reply := server.UpdateProm(derived.(meta := derived.meta.(version := p.obj.meta.version)));
        if reply.Done? { return true; }
        if !reply.Conflict? || tries <= 1 { return false; }
        tries := tries - 1;
      }
    }

    /** Re-read the SLO and write its status back. */
    method Touch(server: Server, name: string, again: bool) returns (ok: bool)
      modifies server
      ensures old(Ends(server, TouchGet(name, ATTEMPTS, again)))
           == if ok then Ended(server, if again then Failed(Plain) else Settled)
              else Ends(server, TouchFailed(name, again))
    {
      hide AdvanceDeriving, PutSloStatus;
      var tries := ATTEMPTS;
      while true
        invariant old(Ends(server, TouchGet(name, ATTEMPTS, again))) == Ends(server, TouchGet(name, tries, again))
        decreases tries
      {
        hide TouchFailed;
        var slo := server.GetSloNamed(name);
        if !slo.Present? { return false; }
        assert old(Ends(server, TouchGet(name, ATTEMPTS, again)))
            == Ends(server, TouchPut(name, slo.obj, tries, again));
        var reply := server.UpdateSloStatus(slo.obj);
        if reply.Done? { return true; }
        if !reply.Conflict? || tries <= 1 { return false; }
        tries := tries - 1;
      }
    }
  }
}
