/**
 Failure-free passes of the MimirRule controller with everyone else idle: a measure falls to zero
 within two passes, and from then on a pass changes nothing.
 */
module MimirConvergence {
  import opened Text
  import opened Api
  import opened RuleCompiler
  import opened MimirTranslation
  import opened ObjectStore
  import opened Cluster
  import opened MimirController

  /** The end of a failure-free pass from `pc`. */
  function Run(cfg: Config, pc: Pc, w: World): (Outcome, World)
    decreases Stage(pc), Count(pc)
  {
    if pc.Stop? then (pc.outcome, w)
    else
      AdvanceProgresses(cfg, pc, w, Fine);
      Run(cfg, Advance(cfg, pc, w, Fine).0, Advance(cfg, pc, w, Fine).1)
  }

  lemma {:induction false} CalmPassIsRun(cfg: Config, pc: Pc, w: World, t: nat)
    ensures Pass(cfg, pc, w, CALM, t).outcome == Run(cfg, pc, w).0
    ensures Pass(cfg, pc, w, CALM, t).world == Run(cfg, pc, w).1
    decreases Stage(pc), Count(pc)
  {
    hide Advance;
    if !pc.Stop? {
      AdvanceProgresses(cfg, pc, w, Fine);
      var (pc', w') := Advance(cfg, pc, w, Fine);
      assert CALM.disturb(t, w) == w && CALM.fault(t) == Fine;
      CalmPassIsRun(cfg, pc', w', t + 1);
    }
  }

  // ----- The setting -----

  function Derived(w: World): MimirRuleSpec
    requires w.prom.Some? && w.rule.Some?
  {
    var connection := w.rule.value.spec.connection;
    MimirRuleSpec(connection, ToMimirGroups(w.prom.value.spec, connection))
  }

  function Wanted(cfg: Config, w: World): seq<PushedGroup>
    requires w.prom.Some? && w.rule.Some?
  {
    Pushes(cfg, Derived(w).groups)
  }

  ghost predicate NamesDistinct(pushes: seq<PushedGroup>)
  {
    forall i, j | 0 <= i < j < |pushes| :: pushes[i].name != pushes[j].name
  }

  /**
   A live SLO, PrometheusRule and SLO-owned MimirRule; a usable Mimir address; group names that do not
   repeat and durations that parse.
   */
  ghost predicate Live(cfg: Config, w: World)
  {
    && w.slo.Some? && w.prom.Some? && w.rule.Some?
    && !w.prom.value.meta.deleting && !w.rule.value.meta.deleting
    && cfg.validAddress(w.rule.value.spec.connection.address)
    && SloRefs(w.rule.value.meta.owners) != []
    && (forall r | r in SloRefs(w.rule.value.meta.owners) :: r.name == w.slo.value.meta.name)
    && NamesDistinct(Wanted(cfg, w))
    && (forall g | g in Derived(w).groups :: ToPushed(cfg, g).Some?)
  }

  function Here(w: World): Client
    requires w.rule.Some?
  {
    Client(w.rule.value.spec.connection.address, w.rule.value.spec.connection.targetTenant)
  }

  /** Every push is in the ruler. */
  ghost predicate Holding(ruler: Ruler, client: Client, pushes: seq<PushedGroup>)
  {
    forall p | p in pushes :: Place(client, p.name) in ruler && ruler[Place(client, p.name)] == p
  }

  ghost predicate SpecDerived(w: World)
    requires w.prom.Some? && w.rule.Some?
  {
    w.rule.value.spec == Derived(w)
  }

  ghost predicate Guarded(w: World)
    requires w.prom.Some? && w.rule.Some?
  {
    RULE_FINALIZER in w.rule.value.meta.finalizers && PROM_FINALIZER in w.prom.value.meta.finalizers
  }

  ghost predicate Converged(cfg: Config, w: World)
    requires Live(cfg, w)
  {
    Holding(w.ruler, Here(w), Wanted(cfg, w)) && SpecDerived(w) && Guarded(w)
  }

  /** Two while the stored spec differs, since the overwrite then drops the finalizer; one until all is in place. */
  ghost function Distance(cfg: Config, w: World): nat
    requires Live(cfg, w)
  {
    if !SpecDerived(w) then 2 else if !Converged(cfg, w) then 1 else 0
  }

  // ----- Pushing -----

  lemma {:induction false} PushAllHolds(ruler: Ruler, client: Client, pushes: seq<PushedGroup>)
    requires NamesDistinct(pushes)
    ensures Holding(PushAll(ruler, client, pushes), client, pushes)
    decreases |pushes|
  {
    if pushes != [] {
      var first, rest := pushes[0], pushes[1..];
      PushAllHolds(ruler[Place(client, first.name) := first], client, rest);
      forall p | p in rest ensures p.name != first.name {
        var i :| 0 <= i < |rest| && rest[i] == p;
        assert pushes[i + 1] == p;
      }
      PushAllFrame(ruler[Place(client, first.name) := first], client, rest, Place(client, first.name));
      assert pushes == [first] + rest;
    }
  }

  lemma {:induction false} PushAllIdle(ruler: Ruler, client: Client, pushes: seq<PushedGroup>)
    requires Holding(ruler, client, pushes)
    ensures PushAll(ruler, client, pushes) == ruler
    decreases |pushes|
  {
    if pushes != [] {
      assert pushes[0] in pushes;
      assert ruler[Place(client, pushes[0].name) := pushes[0]] == ruler;
      PushAllIdle(ruler, client, pushes[1..]);
    }
  }

  lemma {:induction false} RunOwners(cfg: Config, w: World, p: PrometheusRule, m: MimirRule, refs: seq<OwnerRef>)
    requires w.slo.Some? && refs != []
    requires forall r | r in refs :: r.name == w.slo.value.meta.name
    ensures Run(cfg, GetOwner(p, m, refs), w) == Run(cfg, AfterOwners(cfg, p, m, w.slo.value), w)
    decreases |refs|
  {
    hide AfterOwners;
    assert refs[0] in refs;
    if |refs| > 1 {
      assert Run(cfg, GetOwner(p, m, refs), w) == Run(cfg, GetOwner(p, m, refs[1..]), w);
      RunOwners(cfg, w, p, m, refs[1..]);
    }
  }

  lemma {:induction false} RunPushes(
    cfg: Config, w: World, p: PrometheusRule, m: MimirRule, slo: Slo, pushes: seq<PushedGroup>)
    ensures Run(cfg, AfterPushing(p, m, slo, pushes), w)
         == Run(cfg, AfterPushing(p, m, slo, []), w.(ruler := PushAll(w.ruler, ClientOf(m.spec.connection), pushes)))
    decreases |pushes|
  {
    hide AfterRuleGuard;
    if pushes == [] {
      assert w.(ruler := PushAll(w.ruler, ClientOf(m.spec.connection), pushes)) == w;
    } else {
      var w' := w.(ruler := w.ruler[Place(ClientOf(m.spec.connection), pushes[0].name) := pushes[0]]);
      assert Run(cfg, AfterPushing(p, m, slo, pushes), w) == Run(cfg, AfterPushing(p, m, slo, pushes[1..]), w');
      RunPushes(cfg, w', p, m, slo, pushes[1..]);
    }
  }

  // ----- Finalizers -----

  /** The MimirRule with its finalizer, as stored after a failure-free guard. */
  function GuardedRule(w: World): MimirRule
    requires w.rule.Some?
  {
    var m := w.rule.value;
    if RULE_FINALIZER in m.meta.finalizers then m
    else m.(meta := m.meta.(finalizers := m.meta.finalizers + [RULE_FINALIZER], version := w.clock + 1))
  }

  function WithRuleGuard(w: World): World
    requires w.rule.Some?
  {
    if RULE_FINALIZER in w.rule.value.meta.finalizers then w
    else w.(rule := Some(GuardedRule(w)), clock := w.clock + 1)
  }

  lemma RunRuleGuard(cfg: Config, w: World, p: PrometheusRule, slo: Slo)
    requires w.rule.Some? && !w.rule.value.meta.deleting
    ensures Run(cfg, AfterPushing(p, w.rule.value, slo, []), w)
        == Run(cfg, AfterRuleGuard(p, GuardedRule(w), slo), WithRuleGuard(w))
  {
    hide AfterRuleGuard;
    var m := w.rule.value;
    if RULE_FINALIZER !in m.meta.finalizers {
      assert Run(cfg, AfterPushing(p, m, slo, []), w) == Run(cfg, GuardRulePut(p, slo, m, ATTEMPTS), w);
      StoresRule(w, m, WithFinalizer(m, RULE_FINALIZER));
      assert Run(cfg, GuardRulePut(p, slo, m, ATTEMPTS), w)
          == Run(cfg, AfterRuleGuard(p, GuardedRule(w), slo), WithRuleGuard(w));
    }
  }

  /** A failure-free full update of the present version goes through. */
  lemma StoresRule(w: World, m: MimirRule, o: MimirRule)
    requires w.rule == Some(m) && !m.meta.deleting && o.meta.version == m.meta.version && o.meta.uid == m.meta.uid
    requires !o.meta.deleting && o.status == m.status && o != m
    ensures var o' := o.(meta := o.meta.(version := w.clock + 1));
      PutRule(w, o, Fine) == (w.(rule := Some(o'), clock := w.clock + 1), Done(o'))
  {
    hide AddsFinalizer;
    assert Object(o.meta.(uid := m.meta.uid, deleting := m.meta.deleting), o.spec, m.status) == o;
  }

  function GuardedProm(w: World): PrometheusRule
    requires w.prom.Some?
  {
    var p := w.prom.value;
    if PROM_FINALIZER in p.meta.finalizers then p
    else p.(meta := p.meta.(finalizers := p.meta.finalizers + [PROM_FINALIZER], version := w.clock + 1))
  }

  function WithPromGuard(w: World): World
    requires w.prom.Some?
  {
    if PROM_FINALIZER in w.prom.value.meta.finalizers then w
    else w.(prom := Some(GuardedProm(w)), clock := w.clock + 1)
  }

  lemma RunPromGuard(cfg: Config, w: World, m: MimirRule, slo: Slo)
    requires w.prom.Some? && !w.prom.value.meta.deleting
    ensures Run(cfg, AfterRuleGuard(w.prom.value, m, slo), w)
        == Run(cfg, AfterGuards(GuardedProm(w), m, slo), WithPromGuard(w))
  {
    hide AfterGuards;
    var p := w.prom.value;
    if PROM_FINALIZER !in p.meta.finalizers {
      assert Run(cfg, AfterRuleGuard(p, m, slo), w) == Run(cfg, GuardPromPut(m, slo, p, ATTEMPTS), w);
      StoresProm(w, p, WithFinalizer(p, PROM_FINALIZER));
      assert Run(cfg, GuardPromPut(m, slo, p, ATTEMPTS), w)
          == Run(cfg, AfterGuards(GuardedProm(w), m, slo), WithPromGuard(w));
    }
  }

  lemma StoresProm(w: World, p: PrometheusRule, o: PrometheusRule)
    requires w.prom == Some(p) && !p.meta.deleting && o.meta.version == p.meta.version && o.meta.uid == p.meta.uid
    requires !o.meta.deleting && o.status == p.status && o != p
    ensures var o' := o.(meta := o.meta.(version := w.clock + 1));
      PutProm(w, o, Fine) == (w.(prom := Some(o'), clock := w.clock + 1), Done(o'))
  {
    hide AddsFinalizer;
    assert Object(o.meta.(uid := p.meta.uid, deleting := p.meta.deleting), o.spec, p.status) == o;
  }

  // ----- The overwrite -----

  /** The MimirRule after a full overwrite and the Ready mark: no finalizers are left. */
  function Overwritten(w: World, slo: Slo): MimirRule
    requires w.prom.Some? && w.rule.Some?
  {
    var m := NewMimirRule(slo, w.prom.value, w.rule.value.spec.connection);
    m.(meta := m.meta.(uid := w.rule.value.meta.uid), status := "True")
  }

  lemma OverwriteStored(w: World, slo: Slo)
    requires w.prom.Some? && w.rule.Some? && !w.rule.value.meta.deleting && !SpecDerived(w)
    ensures
      var m := w.rule.value;
      var derived := NewMimirRule(slo, w.prom.value, m.spec.connection);
      var stored := derived.(meta := derived.meta.(uid := m.meta.uid, version := w.clock + 1), status := m.status);
      PutRule(w, derived.(meta := derived.meta.(version := m.meta.version)), Fine)
        == (w.(rule := Some(stored), clock := w.clock + 1), Done(stored))
  {
    hide AddsFinalizer, ToMimirGroups;
    var m := w.rule.value;
    var derived := NewMimirRule(slo, w.prom.value, m.spec.connection);
    assert derived.spec == Derived(w);
  }

  lemma ReadyStored(w: World)
    requires w.rule.Some? && !w.rule.value.meta.deleting
    ensures
      var m := w.rule.value; var w' := PutRuleStatus(w, m.(status := "True"), Fine).0;
      && PutRuleStatus(w, m.(status := "True"), Fine).1.Done?
      && w' == w.(rule := w'.rule, clock := w'.clock)
      && w'.rule.Some? && w'.rule.value == m.(status := "True", meta := m.meta.(version := w'.rule.value.meta.version))
  {
  }

  /** A pass from past the guards when the spec differs. */
  lemma RunOverwrite(cfg: Config, w: World, slo: Slo)
    requires w.prom.Some? && w.rule.Some? && !w.rule.value.meta.deleting && !SpecDerived(w)
    ensures var (outcome, w') := Run(cfg, AfterGuards(w.prom.value, w.rule.value, slo), w);
      && outcome == RequeueLater
      && w' == w.(rule := w'.rule, clock := w'.clock) && w'.rule.Some?
      && w'.rule.value == Overwritten(w, slo).(meta := Overwritten(w, slo).meta.(version := w'.rule.value.meta.version))
  {
    hide NewMimirRule, PutRule, PutRuleStatus;
    var p, m := w.prom.value, w.rule.value;
    var derived := NewMimirRule(slo, p, m.spec.connection);
    assert derived.spec == Derived(w) by { DerivedSpec(slo, p, m); }
    assert Run(cfg, AfterGuards(p, m, slo), w) == Run(cfg, OverwritePut(derived, m, ATTEMPTS), w);
    OverwriteStored(w, slo);
    var stored := derived.(meta := derived.meta.(uid := m.meta.uid, version := w.clock + 1), status := m.status);
    var w1 := w.(rule := Some(stored), clock := w.clock + 1);
    assert Run(cfg, OverwritePut(derived, m, ATTEMPTS), w) == Run(cfg, MarkReadyGet(ATTEMPTS), w1);
    assert Run(cfg, MarkReadyGet(ATTEMPTS), w1) == Run(cfg, MarkReadyPut(stored, ATTEMPTS), w1);
    DerivedLive(slo, p, m.spec.connection);
    ReadyStored(w1);
    assert Run(cfg, MarkReadyPut(stored, ATTEMPTS), w1)
        == (RequeueLater, PutRuleStatus(w1, stored.(status := "True"), Fine).0);
  }

  lemma DerivedSpec(slo: Slo, p: PrometheusRule, m: MimirRule)
    ensures NewMimirRule(slo, p, m.spec.connection).spec
         == MimirRuleSpec(m.spec.connection, ToMimirGroups(p.spec, m.spec.connection))
  {
    hide ToMimirGroups;
  }

  lemma DerivedLive(slo: Slo, p: PrometheusRule, connection: Connection)
    ensures !NewMimirRule(slo, p, connection).meta.deleting && NewMimirRule(slo, p, connection).meta.finalizers == []
    ensures NewMimirRule(slo, p, connection).meta.owners == [ControllerRef(slo)]
  {
    hide ToMimirGroups;
  }

  // ----- A whole pass -----

  /** The world once the groups are pushed and both finalizers are in place. */
  function Prepared(cfg: Config, w: World): World
    requires w.prom.Some? && w.rule.Some?
  {
    WithPromGuard(WithRuleGuard(w.(ruler := PushAll(w.ruler, Here(w), Wanted(cfg, w)))))
  }

  lemma RunToGuards(cfg: Config, w: World)
    requires Live(cfg, w)
    ensures Run(cfg, GetProm, w)
         == Run(cfg, AfterGuards(Prepared(cfg, w).prom.value, Prepared(cfg, w).rule.value, w.slo.value),
                Prepared(cfg, w))
  {
    hide AfterGuards, AfterRuleGuard, AfterPushing, ToMimirGroups, Pushes, PushAll, ToPushed, SloRefs;
    var p, m, slo := w.prom.value, w.rule.value, w.slo.value;
    assert Run(cfg, GetProm, w) == Run(cfg, GetRule(p), w);
    assert Run(cfg, GetRule(p), w) == Run(cfg, Examine(cfg, p, m), w);
    assert Examine(cfg, p, m) == GetOwner(p, m, SloRefs(m.meta.owners));
    RunOwners(cfg, w, p, m, SloRefs(m.meta.owners));
    assert AfterOwners(cfg, p, m, slo) == AfterPushing(p, m, slo, Wanted(cfg, w));
    RunPushes(cfg, w, p, m, slo, Wanted(cfg, w));
    var w1 := w.(ruler := PushAll(w.ruler, Here(w), Wanted(cfg, w)));
    RunRuleGuard(cfg, w1, p, slo);
    RunPromGuard(cfg, WithRuleGuard(w1), GuardedRule(w1), slo);
  }

  /** What the guards leave alone. */
  lemma PreparedKeeps(cfg: Config, w: World)
    requires Live(cfg, w)
    ensures var v := Prepared(cfg, w);
      && v.ruler == PushAll(w.ruler, Here(w), Wanted(cfg, w)) && v.slo == w.slo
      && v.prom.Some? && v.rule.Some? && v.prom.value.spec == w.prom.value.spec
      && v.rule.value.spec == w.rule.value.spec
      && v.rule.value.meta.owners == w.rule.value.meta.owners && v.rule.value.meta.uid == w.rule.value.meta.uid
      && !v.rule.value.meta.deleting && !v.prom.value.meta.deleting
      && Guarded(v) && Derived(v) == Derived(w)
  {
    hide ToMimirGroups, Pushes, PushAll, ToPushed, SloRefs;
  }

  /** The same slots and specs make a world as live as another. */
  lemma LiveAgain(cfg: Config, w: World, v: World)
    requires Live(cfg, w)
    requires v.slo == w.slo && v.prom.Some? && v.rule.Some? && v.prom.value.spec == w.prom.value.spec
    requires v.rule.value.spec.connection == w.rule.value.spec.connection
    requires !v.rule.value.meta.deleting && !v.prom.value.meta.deleting
    requires v.rule.value.meta.owners == w.rule.value.meta.owners
      || v.rule.value.meta.owners == [ControllerRef(w.slo.value)]
    ensures Live(cfg, v) && Wanted(cfg, v) == Wanted(cfg, w)
  {
    hide ToMimirGroups, Pushes, ToPushed;
    assert SloRefs([ControllerRef(w.slo.value)]) == [ControllerRef(w.slo.value)];
  }

  /** One failure-free pass keeps the setting and brings the MimirRule closer. */
  lemma PassApproaches(cfg: Config, w: World)
    requires Live(cfg, w)
    ensures var (outcome, w') := Run(cfg, GetProm, w);
      && outcome == RequeueLater && Live(cfg, w')
      && Distance(cfg, w') <= (if Distance(cfg, w) == 0 then 0 else Distance(cfg, w) - 1)
      && Here(w') == Here(w) && Wanted(cfg, w') == Wanted(cfg, w) && Holding(w'.ruler, Here(w), Wanted(cfg, w))
  {
    hide ToMimirGroups, Pushes, PushAll, ToPushed, SloRefs, Prepared, NewMimirRule, Live;
    LiveSlots(cfg, w);
    var v := Prepared(cfg, w);
    var slo := w.slo.value;
    RunToGuards(cfg, w);
    PreparedKeeps(cfg, w);
    PushAllHolds(w.ruler, Here(w), Wanted(cfg, w));
    if SpecDerived(w) {
      DerivedSpec(slo, v.prom.value, v.rule.value);
      assert Run(cfg, AfterGuards(v.prom.value, v.rule.value, slo), v) == (RequeueLater, v);
      LiveAgain(cfg, w, v);
      assert Converged(cfg, v);
    } else {
      assert !SpecDerived(v);
      RunOverwrite(cfg, v, slo);
      var w' := Run(cfg, AfterGuards(v.prom.value, v.rule.value, slo), v).1;
      DerivedSpec(slo, v.prom.value, v.rule.value);
      DerivedLive(slo, v.prom.value, v.rule.value.spec.connection);
      LiveAgain(cfg, w, w');
      assert SpecDerived(w');
    }
  }

  lemma LiveSlots(cfg: Config, w: World)
    requires Live(cfg, w)
    ensures w.slo.Some? && w.prom.Some? && w.rule.Some? && !w.rule.value.meta.deleting
    ensures NamesDistinct(Wanted(cfg, w))
  {
  }

  /** An object with a finalizer put on, if it did not have it. */
  predicate Finalized<S(==), T(==)>(a: Object<S, T>, b: Object<S, T>, finalizer: string)
  {
    b == if finalizer in a.meta.finalizers then a
         else a.(meta := a.meta.(finalizers := a.meta.finalizers + [finalizer], version := b.meta.version))
  }

  /** A MimirRule as written anew: metadata like the PrometheusRule's, controlled by the SLO, no finalizers. */
  predicate WrittenAnew(m: MimirRule, p: PrometheusRule, slo: Slo, connection: Connection, uid: nat)
  {
    && m.meta == Meta(p.meta.name, p.meta.namespace, p.meta.labels, p.meta.annotations,
                      [OwnerRef("SLO", slo.meta.name, slo.meta.uid, true)], [], false, uid, m.meta.version)
    && m.spec == MimirRuleSpec(connection, ToMimirGroups(p.spec, connection)) && m.status == "True"
  }

  /**
   All that a failure-free pass writes: the groups, at this server and tenant; the finalizer on the
   PrometheusRule; and either the finalizer on the MimirRule or, if its spec is out of date, a new one over it.
   */
  lemma PassWrites(cfg: Config, w: World)
    requires Live(cfg, w)
    ensures var v := Run(cfg, GetProm, w).1;
      && v == w.(prom := v.prom, rule := v.rule, ruler := v.ruler, clock := v.clock)
      && v.prom.Some? && Finalized(w.prom.value, v.prom.value, "finalizer.osko.dev/prometheusrule")
      && v.rule.Some?
      && (if SpecDerived(w) then Finalized(w.rule.value, v.rule.value, "finalizer.osko.dev/mimir")
          else WrittenAnew(v.rule.value, w.prom.value, w.slo.value, w.rule.value.spec.connection,
                           w.rule.value.meta.uid))
      && Holding(v.ruler, Here(w), Wanted(cfg, w))
      && forall place: Place |
           place.client != Here(w) || forall p | p in Wanted(cfg, w) :: p.name != place.name ::
             && (place in v.ruler <==> place in w.ruler)
             && (place in w.ruler ==> v.ruler[place] == w.ruler[place])
  {
    hide ToMimirGroups, Pushes, PushAll, ToPushed, SloRefs, Live, Prepared;
    LiveSlots(cfg, w);
    var v, slo := Prepared(cfg, w), w.slo.value;
    RunToGuards(cfg, w);
    PreparedKeeps(cfg, w);
    PreparedWrites(cfg, w);
    PushAllHolds(w.ruler, Here(w), Wanted(cfg, w));
    forall place: Place | place.client != Here(w) || forall p | p in Wanted(cfg, w) :: p.name != place.name
      ensures place in v.ruler <==> place in w.ruler
      ensures place in w.ruler ==> v.ruler[place] == w.ruler[place]
    {
      PushAllFrame(w.ruler, Here(w), Wanted(cfg, w), place);
    }
    DerivedSpec(slo, v.prom.value, v.rule.value);
    if SpecDerived(w) {
      assert Run(cfg, AfterGuards(v.prom.value, v.rule.value, slo), v) == (RequeueLater, v);
    } else {
      RunOverwrite(cfg, v, slo);
    }
  }

  lemma PreparedWrites(cfg: Config, w: World)
    requires w.prom.Some? && w.rule.Some?
    ensures var v := Prepared(cfg, w);
      && v == w.(prom := v.prom, rule := v.rule, ruler := v.ruler, clock := v.clock)
      && v.prom.Some? && Finalized(w.prom.value, v.prom.value, "finalizer.osko.dev/prometheusrule")
      && v.rule.Some? && Finalized(w.rule.value, v.rule.value, "finalizer.osko.dev/mimir")
  {
    hide ToMimirGroups, Pushes, PushAll, ToPushed;
    assert RULE_FINALIZER == "finalizer.osko.dev/mimir";
    assert PROM_FINALIZER == "finalizer.osko.dev/prometheusrule";
  }

  /** Once everything is in place a pass changes nothing at all. */
  lemma ConvergedIsFixed(cfg: Config, w: World)
    requires Live(cfg, w) && Converged(cfg, w)
    ensures Run(cfg, GetProm, w) == (RequeueLater, w)
  {
    hide ToMimirGroups, Pushes, PushAll, ToPushed, SloRefs, NewMimirRule;
    RunToGuards(cfg, w);
    PushAllIdle(w.ruler, Here(w), Wanted(cfg, w));
    assert w.(ruler := PushAll(w.ruler, Here(w), Wanted(cfg, w))) == w;
    assert Prepared(cfg, w) == w;
    DerivedSpec(w.slo.value, w.prom.value, w.rule.value);
  }

  /** The world after a number of failure-free passes. */
  function Passes(cfg: Config, w: World, n: nat): World
  {
    if n == 0 then w else Run(cfg, GetProm, Passes(cfg, w, n - 1)).1
  }

  /**
   Two failure-free passes put every group in Mimir, the derived spec in the store and both
   finalizers in place; every further pass changes nothing.
   */
  lemma {:induction false} TwoPassesConverge(cfg: Config, w: World, n: nat)
    requires Live(cfg, w) && n >= 2
    ensures Live(cfg, Passes(cfg, w, 2)) && Converged(cfg, Passes(cfg, w, 2))
    ensures Wanted(cfg, Passes(cfg, w, 2)) == Wanted(cfg, w) && Here(Passes(cfg, w, 2)) == Here(w)
    ensures Passes(cfg, w, n) == Passes(cfg, w, 2)
    decreases n
  {
    hide Run, Live, Converged;
    assert Passes(cfg, w, 1) == Run(cfg, GetProm, Passes(cfg, w, 0)).1 == Run(cfg, GetProm, w).1;
    assert Passes(cfg, w, 2) == Run(cfg, GetProm, Passes(cfg, w, 1)).1;
    PassApproaches(cfg, w);
    PassApproaches(cfg, Passes(cfg, w, 1));
    assert Distance(cfg, Passes(cfg, w, 2)) == 0;
    ConvergedIsFixed(cfg, Passes(cfg, w, 2));
    if n > 2 {
      TwoPassesConverge(cfg, w, n - 1);
    }
  }

  // ----- Where the finalizer is lost -----

  /**
   A failure-free pass keeps the MimirRule's finalizer exactly when the stored spec already was the
   derived one.
   */
  lemma FinalizerSurvivesIff(cfg: Config, w: World)
    requires Live(cfg, w)
    ensures var w' := Run(cfg, GetProm, w).1;
      && w'.rule.Some?
      && (RULE_FINALIZER in w'.rule.value.meta.finalizers <==> SpecDerived(w))
      && (!SpecDerived(w) ==> w'.rule.value.meta.finalizers == [])
  {
    hide ToMimirGroups, Pushes, PushAll, ToPushed, SloRefs, Prepared, NewMimirRule, Live;
    LiveSlots(cfg, w);
    var v := Prepared(cfg, w);
    var slo := w.slo.value;
    RunToGuards(cfg, w);
    PreparedKeeps(cfg, w);
    DerivedSpec(slo, v.prom.value, v.rule.value);
    if SpecDerived(w) {
      assert Run(cfg, AfterGuards(v.prom.value, v.rule.value, slo), v) == (RequeueLater, v);
    } else {
      RunOverwrite(cfg, v, slo);
      DerivedLive(slo, v.prom.value, v.rule.value.spec.connection);
    }
  }

  predicate LeftBehind(w: World, client: Client, pushes: seq<PushedGroup>)
  {
    exists p | p in pushes :: Place(client, p.name) in w.ruler
  }

  /**
   A deletion right after an entirely successful pass removes the MimirRule at once, one of its groups
   still in Mimir, exactly when the stored spec differed from the derived one and there are groups at all.
   */
  lemma OverwriteThenDeleteLeaksIff(cfg: Config, w: World)
    requires Live(cfg, w)
    ensures var w' := Run(cfg, GetProm, w).1;
      DeletionRequested(w'.rule, w'.clock) == None && LeftBehind(w', Here(w), Wanted(cfg, w))
      <==>
      !SpecDerived(w) && Wanted(cfg, w) != []
  {
    hide Run, Live, SpecDerived, Wanted;
    LiveSlots(cfg, w);
    FinalizerSurvivesIff(cfg, w);
    PassApproaches(cfg, w);
    if Wanted(cfg, w) != [] {
      assert Wanted(cfg, w)[0] in Wanted(cfg, w);
    }
  }

  // ----- Deletion -----

  lemma {:induction false} RunDeletes(cfg: Config, w: World, p: PrometheusRule, m: MimirRule, names: seq<string>)
    ensures Run(cfg, AfterDeleting(p, m, names), w)
         == Run(cfg, AfterDeleting(p, m, []), w.(ruler := DeleteAll(w.ruler, ClientOf(m.spec.connection), names)))
    decreases |names|
  {
    hide AfterRelease;
    if names == [] {
      assert w.(ruler := DeleteAll(w.ruler, ClientOf(m.spec.connection), names)) == w;
    } else {
      var w' := w.(ruler := w.ruler - {Place(ClientOf(m.spec.connection), names[0])});
      assert Run(cfg, AfterDeleting(p, m, names), w) == Run(cfg, AfterDeleting(p, m, names[1..]), w');
      RunDeletes(cfg, w', p, m, names[1..]);
    }
  }

  /** The PrometheusRule once its finalizer is off. */
  ghost predicate PromReleased(a: Slot<seq<RuleGroup>, ()>, b: Slot<seq<RuleGroup>, ()>)
    requires a.Some?
  {
    var o := a.value.(meta := a.value.meta.(finalizers := Remove(a.value.meta.finalizers, PROM_FINALIZER)));
    if PROM_FINALIZER !in a.value.meta.finalizers then b == a
    else if o.meta.deleting && o.meta.finalizers == [] then b.None?
    else b.Some? && b.value == o.(meta := o.meta.(version := b.value.meta.version))
  }

  lemma RunReleaseProm(cfg: Config, w: World) returns (v: World)
    requires w.prom.Some?
    ensures Run(cfg, AfterRelease(w.prom.value), w) == (Settled, v)
    ensures v == w.(prom := v.prom, clock := v.clock) && PromReleased(w.prom, v.prom)
  {
    hide AddsFinalizer;
    var p := w.prom.value;
    v := w;
    if PROM_FINALIZER in p.meta.finalizers {
      RemoveKeeps(p.meta.finalizers, PROM_FINALIZER);
      assert Run(cfg, AfterRelease(p), w) == Run(cfg, ReleasePromPut(p, ATTEMPTS), w);
      NoFinalizerAdded(p.meta, PROM_FINALIZER);
      v := PutProm(w, WithoutFinalizer(p, PROM_FINALIZER), Fine).0;
      assert Run(cfg, ReleasePromPut(p, ATTEMPTS), w) == (Settled, v);
    }
  }

  lemma NoFinalizerAdded(meta: Meta, f: string)
    ensures !AddsFinalizer(meta, meta.(finalizers := Remove(meta.finalizers, f)))
  {
    RemoveKeeps(meta.finalizers, f);
  }

  /**
   A failure-free pass over a MimirRule being deleted takes its groups out of Mimir, then the MimirRule
   and the PrometheusRule's finalizer, and nothing else.
   */
  lemma DeletionCompletes(cfg: Config, w: World)
    requires w.prom.Some? && w.rule.Some? && w.rule.value.meta.deleting
    requires w.rule.value.meta.finalizers == [RULE_FINALIZER] && cfg.validAddress(w.rule.value.spec.connection.address)
    ensures var (outcome, v) := Run(cfg, GetProm, w);
      && outcome == Settled && v.rule.None?
      && (forall place :: place in v.ruler <==>
            place in w.ruler && !(place.client == Here(w) && place.name in Names(Derived(w).groups)))
      && (forall place | place in v.ruler :: v.ruler[place] == w.ruler[place])
      && PromReleased(w.prom, v.prom)
      && v == w.(prom := v.prom, rule := None, ruler := v.ruler, clock := v.clock)
  {
    hide ToMimirGroups, AfterRelease, Names, AddsFinalizer, PromReleased;
    var p, m := w.prom.value, w.rule.value;
    var names := Names(Derived(w).groups);
    assert Run(cfg, GetProm, w) == Run(cfg, GetRule(p), w);
    assert Run(cfg, GetRule(p), w) == Run(cfg, AfterDeleting(p, m, names), w);
    RunDeletes(cfg, w, p, m, names);
    DeleteAllRest(w.ruler, Here(w), names);
    var w1 := w.(ruler := DeleteAll(w.ruler, ClientOf(m.spec.connection), names));
    assert Run(cfg, AfterDeleting(p, m, []), w1) == Run(cfg, ReleaseRulePut(p, m, ATTEMPTS), w1);
    NoFinalizerAdded(m.meta, RULE_FINALIZER);
    assert Remove([RULE_FINALIZER], RULE_FINALIZER) == [];
    var w2 := w1.(rule := None, clock := w1.clock + 1);
    assert PutRule(w1, WithoutFinalizer(m, RULE_FINALIZER), Fine).0 == w2;
    assert Run(cfg, ReleaseRulePut(p, m, ATTEMPTS), w1) == Run(cfg, AfterRelease(p), w2);
    var v := RunReleaseProm(cfg, w2);
  }
}
