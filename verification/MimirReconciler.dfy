/**
 The MimirRule reconciler as written: straight-line calls, retry loops and loops over groups.  Every
 method is proved to end where the step machine ends from the same position, under any faults and
 any changes others make between its calls.
 */
module MimirReconciler {
  import opened Text
  import opened Api
  import opened RuleCompiler
  import opened MimirTranslation
  import opened ObjectStore
  import opened Cluster
  import opened MimirController
  import opened ApiServer

  class MimirRuleReconciler {
    const cfg: Config
    var mimirClient: Option<Client>

    constructor (cfg: Config)
      ensures this.cfg == cfg && mimirClient == None
    {
      this.cfg, this.mimirClient := cfg, None;
    }

    /** The stored client is the one for this MimirRule's connection. */
    ghost predicate Connected(rule: MimirRule)
      reads this
    {
      mimirClient == Some(Client(rule.spec.connection.address, rule.spec.connection.targetTenant))
    }

    /** Where the step machine ends from `pc` in the server's present state. */
    ghost function Ends(server: Server, pc: Pc): PassEnd
      reads server
    {
      Pass(cfg, pc, server.world, server.env, server.calls)
    }

    ghost function Ended(server: Server, outcome: Outcome): PassEnd
      reads server
    {
      Ends(server, Stop(outcome))
    }

    method NewMimirClient(connection: Connection) returns (ok: bool)
      modifies this
      ensures ok == cfg.validAddress(connection.address)
      ensures mimirClient == if ok then Some(Client(connection.address, connection.targetTenant)) else old(mimirClient)
    {
      ok := cfg.validAddress(connection.address);
      if ok {
        mimirClient := Some(Client(connection.address, connection.targetTenant));
      }
    }

    method Reconcile(server: Server) returns (outcome: Outcome)
      modifies server, this
      ensures PassEnd(outcome, server.world, server.calls) == old(Ends(server, GetProm))
    {
      var p := server.GetProm();
      if p.Absent? {
        assert old(Ends(server, GetProm)) == Ended(server, Settled);
        return Settled;
      }
      if p.Unreadable? {
        assert old(Ends(server, GetProm)) == Ended(server, Failed(Transient));
        return Failed(Transient);
      }
      assert old(Ends(server, GetProm)) == Ends(server, GetRule(p.obj));
      outcome := WithProm(server, p.obj);
    }

    method WithProm(server: Server, prom: PrometheusRule) returns (outcome: Outcome)
      modifies server, this
      ensures Ended(server, outcome) == old(Ends(server, GetRule(prom)))
    {
      var m := server.GetRule();
      if m.Absent? { return Settled; }
      if m.Unreadable? { return Failed(Transient); }
      assert old(Ends(server, GetRule(prom))) == Ends(server, Examine(cfg, prom, m.obj));
      hide Advance;
      var ok := NewMimirClient(m.obj.spec.connection);
      if !ok { return Failed(Transient); }
      var groups := NewMimirRuleGroups(prom.spec, m.obj.spec.connection);
      if m.obj.meta.deleting {
        outcome := CleanUp(server, prom, m.obj, groups);
      } else {
        outcome := Synchronize(server, prom, m.obj, groups);
      }
    }

    // ----- Deletion -----

    method CleanUp(
      server: Server, prom: PrometheusRule, rule: MimirRule, groups: seq<MimirGroup>) returns (outcome: Outcome)
      requires Connected(rule)
      modifies server
      ensures Ended(server, outcome) == old(Ends(server, AfterDeleting(prom, rule, Names(groups))))
    {
      hide AdvanceReading, AdvanceGuarding, AdvanceOverwriting;
      for i := 0 to |groups|
        invariant old(Ends(server, AfterDeleting(prom, rule, Names(groups))))
               == Ends(server, AfterDeleting(prom, rule, Names(groups)[i..]))
      {
        assert Names(groups)[i..][1..] == Names(groups)[i + 1..];
        assert Names(groups)[i..][0] == groups[i].name;
        var deleted := server.DeleteRuleGroup(mimirClient.value, groups[i].name);
        if !deleted { return Failed(Transient); }
      }
      assert Names(groups)[|groups|..] == [];
      hide Advance;
      if RULE_FINALIZER in rule.meta.finalizers {
        var released := ReleaseRule(server, prom);
        if !released { return Failed(Transient); }
      }
      if PROM_FINALIZER in prom.meta.finalizers {
        var released := ReleaseProm(server);
        if !released { return Failed(Transient); }
      }
      return Settled;
    }

    method ReleaseRule(server: Server, prom: PrometheusRule) returns (ok: bool)
      modifies server
      ensures old(Ends(server, ReleaseRuleGet(prom, ATTEMPTS)))
           == if ok then Ends(server, AfterRelease(prom)) else Ended(server, Failed(Transient))
    {
      hide AdvanceReading, AdvanceGuarding, AdvanceOverwriting, PutRule, WithoutFinalizer;
      var tries := ATTEMPTS;
      while true
        invariant old(Ends(server, ReleaseRuleGet(prom, ATTEMPTS))) == Ends(server, ReleaseRuleGet(prom, tries))
        decreases tries
      {
        var m := server.GetRule();
        if !m.Present? { return false; }
        assert old(Ends(server, ReleaseRuleGet(prom, ATTEMPTS))) == Ends(server, ReleaseRulePut(prom, m.obj, tries));
        var reply := server.UpdateRule(WithoutFinalizer(m.obj, RULE_FINALIZER));
        if reply.Done? { return true; }
        if !reply.Conflict? || tries <= 1 { return false; }
        tries := tries - 1;
      }
    }

    method ReleaseProm(server: Server) returns (ok: bool)
      modifies server
      ensures old(Ends(server, ReleasePromGet(ATTEMPTS))) == Ended(server, if ok then Settled else Failed(Transient))
    {
      hide AdvanceReading, AdvanceGuarding, AdvanceOverwriting, PutProm, WithoutFinalizer;
      var tries := ATTEMPTS;
      while true
        invariant old(Ends(server, ReleasePromGet(ATTEMPTS))) == Ends(server, ReleasePromGet(tries))
        decreases tries
      {
        var p := server.GetProm();
        if !p.Present? { return false; }
        assert old(Ends(server, ReleasePromGet(ATTEMPTS))) == Ends(server, ReleasePromPut(p.obj, tries));
        var reply := server.UpdateProm(WithoutFinalizer(p.obj, PROM_FINALIZER));
        if reply.Done? { return true; }
        if !reply.Conflict? || tries <= 1 { return false; }
        tries := tries - 1;
      }
    }

    // ----- Reconciliation -----

    method Synchronize(server: Server, prom: PrometheusRule, rule: MimirRule, groups: seq<MimirGroup>)
      returns (outcome: Outcome)
      requires groups == ToMimirGroups(prom.spec, rule.spec.connection)
      requires Connected(rule)
      modifies server
      ensures Ended(server, outcome) == old(Ends(server, Owners(cfg, prom, rule, rule.meta.owners, NO_SLO)))
    {
      hide Advance;
      var owner, found := FindOwner(server, prom, rule);
      if !found { return Failed(Transient); }
      var pushed := PushGroups(server, prom, rule, owner, groups);
      if !pushed { return Failed(Transient); }
      outcome := Guard(server, prom, rule, owner);
    }

    method FindOwner(server: Server, prom: PrometheusRule, rule: MimirRule) returns (slo: Slo, ok: bool)
      modifies server
      ensures old(Ends(server, Owners(cfg, prom, rule, rule.meta.owners, NO_SLO)))
           == if ok then Ends(server, AfterOwners(cfg, prom, rule, slo)) else Ended(server, Failed(Transient))
    {
      hide AfterOwners;
      slo := NO_SLO;
      var refs := rule.meta.owners;
      for i := 0 to |refs|
        invariant old(Ends(server, Owners(cfg, prom, rule, refs, NO_SLO)))
               == Ends(server, Owners(cfg, prom, rule, refs[i..], slo))
      {
        assert refs[i..][1..] == refs[i + 1..];
        if refs[i].kind == "SLO" {
          var rest := SloRefs(refs[i + 1..]);
          assert SloRefs(refs[i..]) == [refs[i]] + rest;
          assert ([refs[i]] + rest)[1..] == rest;
          var found := server.GetSloNamed(refs[i].name);
          if !found.Present? { return slo, false; }
          slo := found.obj;
          assert old(Ends(server, Owners(cfg, prom, rule, refs, NO_SLO)))
              == Ends(server, if rest != [] then GetOwner(prom, rule, rest) else AfterOwners(cfg, prom, rule, slo));
        } else {
          SkipOther(refs[i..]);
        }
      }
      assert refs[|refs|..] == [];
      ok := true;
    }

    lemma SkipOther(refs: seq<OwnerRef>)
      requires refs != [] && refs[0].kind != "SLO"
      ensures SloRefs(refs) == SloRefs(refs[1..])
    {
    }

    method PushGroups(server: Server, prom: PrometheusRule, rule: MimirRule, slo: Slo, groups: seq<MimirGroup>)
      returns (ok: bool)
      requires Connected(rule)
      modifies server
      ensures old(Ends(server, AfterPushing(prom, rule, slo, Pushes(cfg, groups))))
           == if ok then Ends(server, AfterPushing(prom, rule, slo, [])) else Ended(server, Failed(Transient))
    {
      hide PushGroup, ToMimirGroups, NewMimirRule, AdvanceReading, AdvanceReleasing, AdvanceOverwriting;
      for i := 0 to |groups|
        invariant old(Ends(server, AfterPushing(prom, rule, slo, Pushes(cfg, groups))))
               == Ends(server, AfterPushing(prom, rule, slo, Pushes(cfg, groups[i..])))
      {
        hide AfterRuleGuard, ToPushed;
        assert groups[i..][1..] == groups[i + 1..];
        var pushed := PushedGroupOf(cfg, groups[i]);
        if pushed.Some? {
          var rest := Pushes(cfg, groups[i + 1..]);
          assert Pushes(cfg, groups[i..]) == [pushed.value] + rest;
          assert ([pushed.value] + rest)[1..] == rest;
          var done := server.CreateRuleGroup(mimirClient.value, pushed.value);
          if !done { return false; }
        }
      }
      assert groups[|groups|..] == [];
      ok := true;
    }

    method Guard(server: Server, prom: PrometheusRule, rule: MimirRule, slo: Slo) returns (outcome: Outcome)
      modifies server
      ensures Ended(server, outcome) == old(Ends(server, AfterPushing(prom, rule, slo, [])))
    {
      hide Advance, AfterGuards;
      var m, p := rule, prom;
      if RULE_FINALIZER !in m.meta.finalizers {
        var ok;
        m, ok := GuardRule(server, prom, slo);
        if !ok { return Failed(Transient); }
      }
      if PROM_FINALIZER !in p.meta.finalizers {
        var ok;
        p, ok := GuardProm(server, m, slo);
        if !ok { return Failed(Transient); }
      }
      outcome := Compare(server, p, m, slo);
    }

    method GuardRule(server: Server, prom: PrometheusRule, slo: Slo) returns (rule: MimirRule, ok: bool)
      modifies server
      ensures old(Ends(server, GuardRuleGet(prom, slo, ATTEMPTS)))
           == if ok then Ends(server, AfterRuleGuard(prom, rule, slo)) else Ended(server, Failed(Transient))
    {
      hide AdvanceReading, AdvanceReleasing, AdvanceOverwriting, PutRule, WithFinalizer, AfterRuleGuard;
      rule := Object(NO_META, MimirRuleSpec(Connection("", "", [], false), []), "");
      var tries := ATTEMPTS;
      while true
        invariant old(Ends(server, GuardRuleGet(prom, slo, ATTEMPTS))) == Ends(server, GuardRuleGet(prom, slo, tries))
        decreases tries
      {
        var m := server.GetRule();
        if !m.Present? { return rule, false; }
        if RULE_FINALIZER in m.obj.meta.finalizers { return m.obj, true; }
        assert old(Ends(server, GuardRuleGet(prom, slo, ATTEMPTS)))
            == Ends(server, GuardRulePut(prom, slo, m.obj, tries));
        var reply := server.UpdateRule(WithFinalizer(m.obj, RULE_FINALIZER));
        if reply.Done? { return reply.obj, true; }
        if !reply.Conflict? || tries <= 1 { return rule, false; }
        tries := tries - 1;
      }
    }

    method GuardProm(server: Server, rule: MimirRule, slo: Slo) returns (prom: PrometheusRule, ok: bool)
      modifies server
      ensures old(Ends(server, GuardPromGet(rule, slo, ATTEMPTS)))
           == if ok then Ends(server, AfterGuards(prom, rule, slo)) else Ended(server, Failed(Transient))
    {
      hide AdvanceReading, AdvanceReleasing, AdvanceOverwriting, PutProm, WithFinalizer, AfterGuards;
      prom := Object(NO_META, [], ());
      var tries := ATTEMPTS;
      while true
        invariant old(Ends(server, GuardPromGet(rule, slo, ATTEMPTS))) == Ends(server, GuardPromGet(rule, slo, tries))
        decreases tries
      {
        var p := server.GetProm();
        if !p.Present? { return prom, false; }
        if PROM_FINALIZER in p.obj.meta.finalizers { return p.obj, true; }
        assert old(Ends(server, GuardPromGet(rule, slo, ATTEMPTS)))
            == Ends(server, GuardPromPut(rule, slo, p.obj, tries));
        var reply := server.UpdateProm(WithFinalizer(p.obj, PROM_FINALIZER));
        if reply.Done? { return reply.obj, true; }
        if !reply.Conflict? || tries <= 1 { return prom, false; }
        tries := tries - 1;
      }
    }

    method Compare(server: Server, prom: PrometheusRule, rule: MimirRule, slo: Slo) returns (outcome: Outcome)
      modifies server
      ensures Ended(server, outcome) == old(Ends(server, AfterGuards(prom, rule, slo)))
    {
      hide Advance, NewMimirRule;
      var derived := NewMimirRule(slo, prom, rule.spec.connection);
      if rule.spec == derived.spec { return RequeueLater; }
      var ok := Overwrite(server, derived, rule);
      if !ok { return Failed(Transient); }
      var marked := MarkReady(server);
      return if marked then RequeueLater else Failed(Transient);
    }

    method Overwrite(server: Server, derived: MimirRule, rule: MimirRule) returns (ok: bool)
      modifies server
      ensures old(Ends(server, OverwriteGet(derived, rule, ATTEMPTS)))
           == if ok then Ends(server, MarkReadyGet(ATTEMPTS)) else Ended(server, Failed(Transient))
    {
      hide AdvanceReading, AdvanceReleasing, AdvanceGuarding, PutRule;
      var tries := ATTEMPTS;
      var latest := rule;
      while true
        invariant old(Ends(server, OverwriteGet(derived, rule, ATTEMPTS)))
            == Ends(server, OverwriteGet(derived, latest, tries))
        decreases tries
      {
        var m := server.GetRule();
        if !m.Present? {
          Failing(server, latest);
          return false;
        }
        latest := m.obj;
        assert old(Ends(server, OverwriteGet(derived, rule, ATTEMPTS)))
            == Ends(server, OverwritePut(derived, latest, tries));
        var reply := server.UpdateRule(derived.(meta := derived.meta.(version := latest.meta.version)));
        if reply.Done? { return true; }
        if !reply.Conflict? || tries <= 1 {
          Failing(server, latest);
          return false;
        }
        tries := tries - 1;
      }
    }

    method Failing(server: Server, rule: MimirRule)
      modifies server
      ensures old(Ends(server, MarkFailed(rule))) == Ended(server, Failed(Transient))
    {
      hide AdvanceReading, AdvanceReleasing, AdvanceGuarding;
      var reply := server.UpdateRuleStatus(rule.(status := "False"));
    }

    method MarkReady(server: Server) returns (ok: bool)
      modifies server
      ensures old(Ends(server, MarkReadyGet(ATTEMPTS))) == Ended(server, if ok then RequeueLater else Failed(Transient))
    {
      hide AdvanceReading, AdvanceReleasing, AdvanceGuarding, PutRuleStatus;
      var tries := ATTEMPTS;
      while true
        invariant old(Ends(server, MarkReadyGet(ATTEMPTS))) == Ends(server, MarkReadyGet(tries))
        decreases tries
      {
        var m := server.GetRule();
        if !m.Present? { return false; }
        assert old(Ends(server, MarkReadyGet(ATTEMPTS))) == Ends(server, MarkReadyPut(m.obj, tries));
        var reply := server.UpdateRuleStatus(m.obj.(status := "True"));
        if reply.Done? { return true; }
        if !reply.Conflict? || tries <= 1 { return false; }
        tries := tries - 1;
      }
    }
  }
}
