/**
 No leaked groups: while the PrometheusRule keeps its groups and MimirRules are built from them, no
 run lets a MimirRule that ever carried its finalizer vanish while Mimir holds one of its groups.
 */
module GroupLeaks {
  import opened Text
  import opened Selectors
  import opened Api
  import opened RuleCompiler
  import opened MimirTranslation
  import opened ObjectStore
  import opened Cluster
  import SloController
  import PromController
  import opened MimirController
  import opened JointRuns
  import FinalizerEdits

  /** The spec of a MimirRule built from these groups for this connection. */
  function Built(groups: seq<RuleGroup>, connection: Connection): MimirRuleSpec
  {
    MimirRuleSpec(connection, ToMimirGroups(groups, connection))
  }

  /**
   The setting of one step: the PrometheusRule has the fixed groups, a MimirRule about to be created was
   built from them, and nobody else edits the MimirRule.  Everything may be deleted at any time.
   */
  predicate Steady(groups: seq<RuleGroup>, connection: Connection, s: System, e: Event)
  {
    && (s.w.prom.Some? ==> s.w.prom.value.spec == groups)
    && (e.Call? && e.c == SloCtl && s.slo.MakeRule? ==> s.slo.rule.spec == Built(groups, connection))
    && !(e.User? && e.a.EditRule?)
  }

  // ----- The invariant -----

  const ONE := [RULE_FINALIZER]

  /** The stored MimirRule: its spec, and a finalizer once it has been guarded or is being deleted. */
  ghost predicate RuleOk(w: World, guarded: set<nat>, spec: MimirRuleSpec)
  {
    && Stamped(w.rule, w.clock)
    && (forall u | u in guarded :: u <= w.clock)
    && (w.rule.Some? ==>
          var m := w.rule.value;
          && m.meta.uid <= w.clock && m.spec == spec && (m.meta.finalizers == [] || m.meta.finalizers == ONE)
          && (m.meta.deleting || m.meta.uid in guarded ==> m.meta.finalizers == ONE))
  }

  ghost predicate SloOk(pc: SloController.Pc, w: World, spec: MimirRuleSpec)
  {
    && (pc.MakeRule? ==> pc.rule.meta.finalizers == [])
    && (pc.OwnRule? ==> pc.rule.spec == spec && Copy(pc.rule, w.rule, w.clock))
  }

  predicate HasProm(pc: MimirController.Pc)
  {
    || pc.GetRule? || pc.GetOwner? || pc.Pushing? || pc.GuardRuleGet? || pc.GuardRulePut? || pc.GuardPromPut?
    || pc.Deleting? || pc.ReleaseRuleGet? || pc.ReleaseRulePut?
  }

  predicate HasRule(pc: MimirController.Pc)
  {
    || pc.GetOwner? || pc.Pushing? || pc.GuardRulePut? || pc.GuardPromGet? || pc.GuardPromPut?
    || pc.Deleting? || pc.ReleaseRulePut?
  }

  /** Each name is still to be deleted or absent from Mimir. */
  predicate Cleared(ruler: Ruler, client: Client, names: seq<string>, pending: seq<string>)
  {
    forall n | n in names :: n in pending || Place(client, n) !in ruler
  }

  predicate HoldsSpecs(pc: MimirController.Pc, groups: seq<RuleGroup>, spec: MimirRuleSpec)
  {
    && !Overwriting(pc)
    && (HasProm(pc) ==> pc.prom.spec == groups)
    && (HasRule(pc) ==> pc.rule.spec == spec)
  }

  predicate HoldsClearance(pc: MimirController.Pc, w: World, spec: MimirRuleSpec)
  {
    && (pc.Deleting? || pc.ReleaseRuleGet? || pc.ReleaseRulePut? ==> w.rule.Some? && w.rule.value.meta.deleting)
    && (pc.Deleting? ==> Cleared(w.ruler, ClientOf(spec.connection), Names(spec.groups), pc.names))
    && (pc.ReleaseRuleGet? || pc.ReleaseRulePut? ==>
          Cleared(w.ruler, ClientOf(spec.connection), Names(spec.groups), []))
  }

  ghost predicate Sound(s: System, groups: seq<RuleGroup>, spec: MimirRuleSpec)
  {
    && RuleOk(s.w, s.guardedUids, spec)
    && SloOk(s.slo, s.w, spec)
    && HoldsSpecs(s.rule, groups, spec) && HoldsClearance(s.rule, s.w, spec) && FinalizerEdits.Copies(s.rule, s.w)
  }

  /** The guarded MimirRule of the first world is gone from the second. */
  predicate Vanished(w: World, v: World, guarded: set<nat>)
  {
    && w.rule.Some? && w.rule.value.meta.uid in guarded
    && (v.rule.None? || v.rule.value.meta.uid != w.rule.value.meta.uid)
  }

  // ----- Steps of everyone but the MimirRule controller -----

  /** How others may move the MimirRule on: with a finalizer it stays, with the same spec and finalizer. */
  ghost predicate Others(w: World, v: World)
  {
    && v.ruler == w.ruler
    && Evolves(w.rule, w.clock, v.rule, v.clock)
    && (w.rule.Some? && w.rule.value.meta.finalizers == ONE ==>
          && v.rule.Some? && v.rule.value.meta.uid == w.rule.value.meta.uid
          && v.rule.value.meta.finalizers == ONE && (w.rule.value.meta.deleting ==> v.rule.value.meta.deleting))
  }

  /** A write of a copy whose spec and finalizers are the stored ones. */
  lemma CopyWritten(w: World, m: MimirRule, o: MimirRule, f: Fault, guarded: set<nat>, spec: MimirRuleSpec)
    requires RuleOk(w, guarded, spec) && Copy(m, w.rule, w.clock)
    requires o == m.(meta := m.meta.(owners := o.meta.owners))
    ensures var v := PutRule(w, o, f).0; RuleOk(v, guarded, spec) && Others(w, v)
  {
    hide AddsFinalizer;
    ReplaceEvolves(w.rule, o, w.clock, f);
  }

  lemma StatusWritten(w: World, o: MimirRule, f: Fault, guarded: set<nat>, spec: MimirRuleSpec)
    requires RuleOk(w, guarded, spec)
    ensures var v := PutRuleStatus(w, o, f).0; RuleOk(v, guarded, spec) && Others(w, v)
  {
    StatusEvolves(w.rule, o, w.clock, f);
  }

  lemma RuleCreated(w: World, m: MimirRule, f: Fault, guarded: set<nat>, spec: MimirRuleSpec)
    requires RuleOk(w, guarded, spec) && m.spec == spec && m.meta.finalizers == []
    ensures var (v, reply) := CreateRule(w, m, f);
      && RuleOk(v, guarded, spec) && Others(w, v)
      && (reply.Done? ==> reply.obj.spec == spec && Copy(reply.obj, v.rule, v.clock))
  {
    CreateEvolves(w.rule, m, w.clock, f);
  }

  lemma RuleDeleted(key: Key, w: World, guarded: set<nat>, spec: MimirRuleSpec)
    requires RuleOk(w, guarded, spec)
    ensures var v := Act(key, w, DeleteRule); RuleOk(v, guarded, spec) && Others(w, v)
  {
    DeleteEvolves(w.rule, w.clock);
  }

  lemma Untouched(w: World, v: World, guarded: set<nat>, spec: MimirRuleSpec)
    requires RuleOk(w, guarded, spec) && v.rule == w.rule && v.ruler == w.ruler && w.clock <= v.clock
    ensures RuleOk(v, guarded, spec) && Others(w, v)
  {
  }

  lemma NewRuleUnguarded(slo: Slo, p: PrometheusRule, connection: Connection)
    ensures NewMimirRule(slo, p, connection).meta.finalizers == []
    ensures NewMimirRule(slo, p, connection).spec == Built(p.spec, connection)
  {
    hide ToMimirGroups;
  }

  lemma SloCallSound(cfg: Config, pc: SloController.Pc, w: World, f: Fault, guarded: set<nat>, spec: MimirRuleSpec)
    requires RuleOk(w, guarded, spec) && SloOk(pc, w, spec) && (pc.MakeRule? ==> pc.rule.spec == spec)
    ensures var (pc', v) := SloController.Advance(cfg, pc, w, f);
      RuleOk(v, guarded, spec) && Others(w, v) && SloOk(pc', v, spec)
  {
    hide RuleOk, Others, SloOk, SloController.AdvanceMakingRule, SloController.Advance;
    if SloController.MakingRule(pc) {
      AdvancesMakingRule(cfg, pc, w, f);
      MakingRuleSound(cfg, pc, w, f, guarded, spec);
    } else {
      OutsideKeepsRule(cfg, pc, w, f);
      Untouched(w, SloController.Advance(cfg, pc, w, f).1, guarded, spec);
      OutsideMakingRule(cfg, pc, w, f);
      NoRuleHeld(SloController.Advance(cfg, pc, w, f).0, SloController.Advance(cfg, pc, w, f).1, spec);
    }
  }

  lemma AdvancesMakingRule(cfg: Config, pc: SloController.Pc, w: World, f: Fault)
    requires SloController.MakingRule(pc)
    ensures SloController.Advance(cfg, pc, w, f) == SloController.AdvanceMakingRule(cfg, pc, w, f)
  {
    hide SloController.AdvanceMakingRule;
  }

  lemma NoRuleHeld(pc: SloController.Pc, w: World, spec: MimirRuleSpec)
    requires !pc.MakeRule? && !pc.OwnRule?
    ensures SloOk(pc, w, spec)
  {
  }

  lemma OutsideKeepsRule(cfg: Config, pc: SloController.Pc, w: World, f: Fault)
    requires !SloController.MakingRule(pc)
    ensures var v := SloController.Advance(cfg, pc, w, f).1;
      v.rule == w.rule && v.ruler == w.ruler && w.clock <= v.clock
  {
    hide Attempt, Replaced, Created, StatusReplaced, SloController.AdvanceMakingRule, SloController.NewAlerting,
      SloController.NewInlineSli, SloController.WithReadyCondition, WithFinalizer, WithoutFinalizer,
      SloController.CompileProm, SloController.Owned, SloController.Ready, SloController.ExamineSlo,
      SloController.ChooseSli;
  }

  lemma MakingRuleSound(cfg: Config, pc: SloController.Pc, w: World, f: Fault, guarded: set<nat>, spec: MimirRuleSpec)
    requires SloController.MakingRule(pc)
    requires RuleOk(w, guarded, spec) && SloOk(pc, w, spec) && (pc.MakeRule? ==> pc.rule.spec == spec)
    ensures var (pc', v) := SloController.AdvanceMakingRule(cfg, pc, w, f);
      RuleOk(v, guarded, spec) && Others(w, v) && SloOk(pc', v, spec)
  {
    hide Attempt, RuleOk, Others, CreateRule, PutRule, PutRuleStatus, Replaced, StatusReplaced, NewMimirRule, Copy,
      SloController.WithReadyCondition, SloController.WithOwner, SloController.Ready;
    var v := SloController.AdvanceMakingRule(cfg, pc, w, f).1;
    match pc
    case MakeRule(_, m) => RuleCreated(w, m, f, guarded, spec);
    case OwnRule(slo, m) => CopyWritten(w, m, SloController.Owned(m, slo), f, guarded, spec);
    case ReadyRule(m) => StatusWritten(w, m.(status := "True"), f, guarded, spec);
    case GetRule(slo, ds, p) => Untouched(w, v, guarded, spec); NewRuleUnguarded(slo, p, ds.spec);
    case _ => Untouched(w, v, guarded, spec);
  }

  lemma OutsideMakingRule(cfg: Config, pc: SloController.Pc, w: World, f: Fault)
    requires !SloController.MakingRule(pc)
    ensures var pc' := SloController.Advance(cfg, pc, w, f).0; !pc'.MakeRule? && !pc'.OwnRule?
  {
    hide Attempt, CreateSli, PutSli, CreateProm, PutProm, PutPromStatus, PutSlo, PutSloStatus, CreateAlerting,
      PutAlerting, SloController.NewAlerting, SloController.NewInlineSli, SloController.WithReadyCondition,
      WithFinalizer, WithoutFinalizer, CreatePrometheusRule, SloController.WithOwner, SloController.Ready;
  }

  lemma PromCallSound(cfg: Config, pc: PromController.Pc, w: World, f: Fault, guarded: set<nat>, spec: MimirRuleSpec)
    requires RuleOk(w, guarded, spec)
    ensures var v := PromController.Advance(cfg, pc, w, f).1; RuleOk(v, guarded, spec) && Others(w, v)
  {
    hide RuleOk, Others, Replaced, StatusReplaced, PromController.WithReady, PromController.Derive,
      PromController.ChooseSli, PromController.ExamineProm;
    Untouched(w, PromController.Advance(cfg, pc, w, f).1, guarded, spec);
  }

  lemma UserSound(key: Key, w: World, a: Action, guarded: set<nat>, spec: MimirRuleSpec)
    requires RuleOk(w, guarded, spec) && !a.EditRule?
    ensures var v := Act(key, w, a); RuleOk(v, guarded, spec) && Others(w, v)
  {
    hide RuleOk, Others, DeletionRequested, Created, Replaced;
    if a.DeleteRule? {
      RuleDeleted(key, w, guarded, spec);
    } else {
      Untouched(w, Act(key, w, a), guarded, spec);
    }
  }

  lemma SloLater(pc: SloController.Pc, w: World, v: World, spec: MimirRuleSpec)
    requires SloOk(pc, w, spec) && Evolves(w.rule, w.clock, v.rule, v.clock)
    ensures SloOk(pc, v, spec)
  {
  }

  lemma ClearanceLater(pc: MimirController.Pc, w: World, v: World, guarded: set<nat>, spec: MimirRuleSpec)
    requires RuleOk(w, guarded, spec) && HoldsClearance(pc, w, spec) && FinalizerEdits.Copies(pc, w)
    requires Others(w, v) && FinalizerEdits.SlotsEvolve(w, v)
    ensures HoldsClearance(pc, v, spec) && FinalizerEdits.Copies(pc, v) && !Vanished(w, v, guarded)
  {
    hide Evolves, Cleared, Names, FinalizerEdits.Copies;
    FinalizerEdits.CopiesLater(pc, w, v);
  }

  // ----- Steps of the MimirRule controller -----

  /** Local work reaches no overwrite, the derived spec being the stored one. */
  lemma LocalWork(
    cfg: Config, p: PrometheusRule, m: MimirRule, slo: Slo, pushes: seq<PushedGroup>, groups: seq<RuleGroup>,
    spec: MimirRuleSpec)
    requires p.spec == groups && m.spec == spec && spec == Built(groups, spec.connection)
    ensures HoldsSpecs(AfterPushing(p, m, slo, pushes), groups, spec) && !Releasing(AfterPushing(p, m, slo, pushes))
    ensures HoldsSpecs(AfterOwners(cfg, p, m, slo), groups, spec) && !Releasing(AfterOwners(cfg, p, m, slo))
    ensures HoldsSpecs(AfterRuleGuard(p, m, slo), groups, spec) && !Releasing(AfterRuleGuard(p, m, slo))
    ensures HoldsSpecs(AfterGuards(p, m, slo), groups, spec) && !Releasing(AfterGuards(p, m, slo))
  {
    hide NewMimirRule, ToMimirGroups, Pushes;
    NewRuleUnguarded(slo, p, m.spec.connection);
  }

  lemma CleanUp(
    w: World, p: PrometheusRule, m: MimirRule, names: seq<string>, groups: seq<RuleGroup>, spec: MimirRuleSpec)
    requires w.rule.Some? && w.rule.value.meta.deleting
    requires Cleared(w.ruler, ClientOf(spec.connection), Names(spec.groups), names)
    requires p.spec == groups && m.spec == spec
    ensures HoldsClearance(AfterDeleting(p, m, names), w, spec) && HoldsSpecs(AfterDeleting(p, m, names), groups, spec)
  {
  }

  lemma ReadingSound(
    cfg: Config, pc: MimirController.Pc, w: World, f: Fault, guarded: set<nat>, groups: seq<RuleGroup>,
    spec: MimirRuleSpec)
    requires Reading(pc) && RuleOk(w, guarded, spec) && HoldsSpecs(pc, groups, spec)
    requires (w.prom.Some? ==> w.prom.value.spec == groups) && spec == Built(groups, spec.connection)
    ensures var (pc', v) := AdvanceReading(cfg, pc, w, f);
      v == w && HoldsSpecs(pc', groups, spec) && HoldsClearance(pc', v, spec)
  {
    hide NewMimirRule, ToMimirGroups, Pushes, AfterOwners, AfterDeleting, SloRefs, Names, Cleared;
    if pc.GetOwner? {
      LocalWork(cfg, pc.prom, pc.rule, NO_SLO, [], groups, spec);
      if w.slo.Some? {
        LocalWork(cfg, pc.prom, pc.rule, w.slo.value, [], groups, spec);
      }
    }
    if pc.GetRule? && w.rule.Some? {
      LocalWork(cfg, pc.prom, w.rule.value, NO_SLO, [], groups, spec);
      assert spec.groups == ToMimirGroups(groups, spec.connection);
      if w.rule.value.meta.deleting {
        NothingCleared(w.ruler, ClientOf(spec.connection), Names(spec.groups));
        CleanUp(w, pc.prom, w.rule.value, Names(spec.groups), groups, spec);
      }
    }
  }

  lemma NothingCleared(ruler: Ruler, client: Client, names: seq<string>)
    ensures Cleared(ruler, client, names, names)
  {
  }

  lemma ReleaseWritten(w: World, m: MimirRule, f: Fault, guarded: set<nat>, spec: MimirRuleSpec)
    requires RuleOk(w, guarded, spec) && Copy(m, w.rule, w.clock) && w.rule.Some? && w.rule.value.meta.deleting
    ensures var (v, reply) := PutRule(w, WithoutFinalizer(m, RULE_FINALIZER), f);
      && RuleOk(v, guarded, spec) && Evolves(w.rule, w.clock, v.rule, v.clock) && v.ruler == w.ruler
      && v.rule in {w.rule, None} && (reply.Conflict? ==> v.rule == w.rule)
  {
    hide AddsFinalizer;
    ReplaceEvolves(w.rule, WithoutFinalizer(m, RULE_FINALIZER), w.clock, f);
    assert Remove(ONE, RULE_FINALIZER) == [];
  }

  lemma ReleaseGoesOn(p: PrometheusRule, w: World, groups: seq<RuleGroup>, spec: MimirRuleSpec)
    ensures HoldsSpecs(AfterRelease(p), groups, spec) && HoldsClearance(AfterRelease(p), w, spec)
  {
  }

  lemma GroupDeleted(
    w: World, p: PrometheusRule, m: MimirRule, names: seq<string>, f: Fault, groups: seq<RuleGroup>,
    spec: MimirRuleSpec)
    requires names != [] && HoldsClearance(Deleting(p, m, names), w, spec) && p.spec == groups && m.spec == spec
    ensures var (v, ok) := DeleteGroup(w, ClientOf(m.spec.connection), names[0], f);
      && v == w.(ruler := v.ruler)
      && (ok ==> HoldsSpecs(AfterDeleting(p, m, names[1..]), groups, spec)
                 && HoldsClearance(AfterDeleting(p, m, names[1..]), v, spec))
  {
    hide AfterDeleting, Names;
    var (v, ok) := DeleteGroup(w, ClientOf(m.spec.connection), names[0], f);
    if ok {
      assert names == [names[0]] + names[1..];
      CleanUp(v, p, m, names[1..], groups, spec);
    }
  }

  /** Only the last write takes the MimirRule away, and by then its groups are gone. */
  lemma ReleasingSound(
    cfg: Config, pc: MimirController.Pc, w: World, f: Fault, guarded: set<nat>, groups: seq<RuleGroup>,
    spec: MimirRuleSpec)
    requires Releasing(pc) && RuleOk(w, guarded, spec) && HoldsSpecs(pc, groups, spec) && HoldsClearance(pc, w, spec)
    requires FinalizerEdits.Copies(pc, w)
    ensures var (pc', v) := AdvanceReleasing(cfg, pc, w, f);
      && RuleOk(v, guarded, spec) && HoldsSpecs(pc', groups, spec) && HoldsClearance(pc', v, spec)
      && Evolves(w.rule, w.clock, v.rule, v.clock)
      && (Vanished(w, v, guarded) ==> Cleared(v.ruler, ClientOf(spec.connection), Names(spec.groups), []))
  {
    hide PutRule, Replaced, WithoutFinalizer, Evolves, Copy, Names, AfterDeleting, AfterRelease, DeleteGroup,
      Cleared, Attempt;
    var v := AdvanceReleasing(cfg, pc, w, f).1;
    match pc
    case Deleting(p, m, names) =>
      Unchanged(w, v, guarded, spec) by { RulerOnly(cfg, pc, w, f); }
      if names == [] {
        CleanUp(w, p, m, [], groups, spec);
      } else {
        GroupDeleted(w, p, m, names, f, groups, spec);
      }
    case ReleaseRulePut(p, m, _) =>
      ReleaseWritten(w, m, f, guarded, spec);
      ReleaseGoesOn(p, v, groups, spec);
    case _ => Unchanged(w, v, guarded, spec);
  }

  lemma RulerOnly(cfg: Config, pc: MimirController.Pc, w: World, f: Fault)
    requires pc.Deleting?
    ensures var v := AdvanceReleasing(cfg, pc, w, f).1; v.rule == w.rule && v.clock == w.clock
  {
    hide AfterDeleting;
  }

  lemma Unchanged(w: World, v: World, guarded: set<nat>, spec: MimirRuleSpec)
    requires RuleOk(w, guarded, spec) && v.rule == w.rule && w.clock <= v.clock
    ensures RuleOk(v, guarded, spec) && Evolves(w.rule, w.clock, v.rule, v.clock) && !Vanished(w, v, guarded)
  {
  }

  lemma GuardWritten(w: World, m: MimirRule, f: Fault, guarded: set<nat>, spec: MimirRuleSpec)
    requires RuleOk(w, guarded, spec) && Copy(m, w.rule, w.clock)
    requires RULE_FINALIZER !in m.meta.finalizers && m.spec == spec
    ensures var (v, reply) := PutRule(w, WithFinalizer(m, RULE_FINALIZER), f);
      && RuleOk(v, guarded, spec) && Evolves(w.rule, w.clock, v.rule, v.clock) && !Vanished(w, v, guarded)
      && (reply.Done? ==> reply.obj.spec == spec)
  {
    ReplaceEvolves(w.rule, WithFinalizer(m, RULE_FINALIZER), w.clock, f);
    assert [] + [RULE_FINALIZER] == ONE;
  }

  lemma GuardingSound(
    cfg: Config, pc: MimirController.Pc, w: World, f: Fault, guarded: set<nat>, groups: seq<RuleGroup>,
    spec: MimirRuleSpec)
    requires Guarding(pc) && RuleOk(w, guarded, spec) && HoldsSpecs(pc, groups, spec)
    requires (w.prom.Some? ==> w.prom.value.spec == groups) && spec == Built(groups, spec.connection)
    requires FinalizerEdits.Copies(pc, w)
    ensures var (pc', v) := AdvanceGuarding(cfg, pc, w, f);
      && RuleOk(v, guarded, spec) && HoldsSpecs(pc', groups, spec) && HoldsClearance(pc', v, spec)
      && Evolves(w.rule, w.clock, v.rule, v.clock) && !Vanished(w, v, guarded)
  {
    hide Attempt, PutRule, Replaced, WithFinalizer, Evolves, Copy, Names, AfterPushing, AfterRuleGuard, AfterGuards,
      Cleared, RuleOk, Vanished, AddsFinalizer;
    var v := AdvanceGuarding(cfg, pc, w, f).1;
    match pc
    case Pushing(p, m, slo, pushes) =>
      Unchanged(w, v, guarded, spec);
      LocalWork(cfg, p, m, slo, if pushes == [] then [] else pushes[1..], groups, spec);
    case GuardRuleGet(p, slo, _) =>
      Unchanged(w, v, guarded, spec);
      StoredSpec(w, guarded, spec);
      if w.rule.Some? {
        LocalWork(cfg, p, w.rule.value, slo, [], groups, spec);
      }
    case GuardRulePut(p, slo, m, _) =>
      GuardWritten(w, m, f, guarded, spec);
      var reply := PutRule(w, WithFinalizer(m, RULE_FINALIZER), f).1;
      if reply.Done? {
        LocalWork(cfg, p, reply.obj, slo, [], groups, spec);
      }
    case GuardPromGet(m, slo, _) =>
      Unchanged(w, v, guarded, spec);
      if w.prom.Some? {
        LocalWork(cfg, w.prom.value, m, slo, [], groups, spec);
      }
    case GuardPromPut(m, slo, p, _) =>
      Unchanged(w, v, guarded, spec);
      PutKeepsSpec(w, p, f);
      var reply := PutProm(w, WithFinalizer(p, PROM_FINALIZER), f).1;
      if reply.Done? {
        LocalWork(cfg, reply.obj, m, slo, [], groups, spec);
      }
  }

  lemma StoredSpec(w: World, guarded: set<nat>, spec: MimirRuleSpec)
    requires RuleOk(w, guarded, spec)
    ensures w.rule.Some? ==> w.rule.value.spec == spec
  {
  }

  lemma PutKeepsSpec(w: World, p: PrometheusRule, f: Fault)
    ensures var reply := PutProm(w, WithFinalizer(p, PROM_FINALIZER), f).1; reply.Done? ==> reply.obj.spec == p.spec
  {
    hide AddsFinalizer;
  }

  // ----- Runs -----

  lemma GuardNoted(w: World, guarded: set<nat>, spec: MimirRuleSpec)
    requires RuleOk(w, guarded, spec)
    ensures RuleOk(w, guarded + GuardedUid(w), spec)
  {
  }

  lemma OthersStep(s: System, t: System, groups: seq<RuleGroup>, spec: MimirRuleSpec)
    requires Sound(s, groups, spec) && t.rule == s.rule && t.guardedUids == s.guardedUids + GuardedUid(t.w)
    requires RuleOk(t.w, s.guardedUids, spec) && Others(s.w, t.w) && FinalizerEdits.SlotsEvolve(s.w, t.w)
    requires t.slo == s.slo || SloOk(t.slo, t.w, spec)
    ensures Sound(t, groups, spec) && !Vanished(s.w, t.w, s.guardedUids)
  {
    hide RuleOk, SloOk, HoldsSpecs, HoldsClearance, FinalizerEdits.Copies, GuardedUid, FinalizerEdits.SlotsEvolve,
      Evolves, Vanished;
    GuardNoted(t.w, s.guardedUids, spec);
    ClearanceLater(s.rule, s.w, t.w, s.guardedUids, spec);
    SloLater(s.slo, s.w, t.w, spec);
  }

  lemma RuleCallSound(
    cfg: Config, pc: MimirController.Pc, w: World, f: Fault, guarded: set<nat>, groups: seq<RuleGroup>,
    spec: MimirRuleSpec)
    requires RuleOk(w, guarded, spec) && HoldsSpecs(pc, groups, spec) && HoldsClearance(pc, w, spec)
    requires (w.prom.Some? ==> w.prom.value.spec == groups) && spec == Built(groups, spec.connection)
    requires FinalizerEdits.Copies(pc, w)
    ensures var (pc', v) := MimirController.Advance(cfg, pc, w, f);
      && RuleOk(v, guarded, spec) && HoldsSpecs(pc', groups, spec) && HoldsClearance(pc', v, spec)
      && Evolves(w.rule, w.clock, v.rule, v.clock)
      && (Vanished(w, v, guarded) ==> Cleared(v.ruler, ClientOf(spec.connection), Names(spec.groups), []))
  {
    hide HoldsClearance, AdvanceReading, AdvanceReleasing, AdvanceGuarding, AdvanceOverwriting, Names, Built,
      FinalizerEdits.Copies;
    Unchanged(w, w, guarded, spec);
    if Reading(pc) {
      ReadingSound(cfg, pc, w, f, guarded, groups, spec);
    } else if Releasing(pc) {
      ReleasingSound(cfg, pc, w, f, guarded, groups, spec);
    } else if Guarding(pc) {
      GuardingSound(cfg, pc, w, f, guarded, groups, spec);
    }
  }

  lemma StepSound(
    cfg: Config, key: Key, s: System, e: Event, groups: seq<RuleGroup>, connection: Connection)
    requires Sound(s, groups, Built(groups, connection)) && FinalizerEdits.Tracked(s)
    requires Steady(groups, connection, s, e)
    ensures var t := Step(cfg, key, s, e);
      && Sound(t, groups, Built(groups, connection))
      && (Vanished(s.w, t.w, s.guardedUids) ==>
            Cleared(t.w.ruler, Client(connection.address, connection.targetTenant),
                    Names(Built(groups, connection).groups), []))
  {
    hide RuleOk, SloOk, HoldsClearance, FinalizerEdits.Copies, GuardedUid, FinalizerEdits.SlotsEvolve, Evolves,
      Vanished, Others, SloController.Advance, PromController.Advance, MimirController.Advance, Act, Names,
      HoldsSpecs, FinalizerEdits.SlotsStamped, ToMimirGroups;
    var spec := Built(groups, connection);
    var t := Step(cfg, key, s, e);
    FinalizerEdits.StepTracked(cfg, key, s, e);
    match e
    case Call(SloCtl, f) =>
      SloCallSound(cfg, s.slo, s.w, f, s.guardedUids, spec);
      OthersStep(s, t, groups, spec);
    case Call(PromCtl, f) =>
      PromCallSound(cfg, s.prom, s.w, f, s.guardedUids, spec);
      OthersStep(s, t, groups, spec);
    case Call(RuleCtl, f) =>
      RuleCallSound(cfg, s.rule, s.w, f, s.guardedUids, groups, spec);
      GuardNoted(t.w, s.guardedUids, spec);
      SloLater(s.slo, s.w, t.w, spec);
    case User(a) =>
      UserSound(key, s.w, a, s.guardedUids, spec);
      OthersStep(s, t, groups, spec);
    case Start(c) => IdleStep(cfg, key, s, c, groups, spec);
    case Crash(c) => IdleStep(cfg, key, s, c, groups, spec);
  }

  lemma IdleStep(cfg: Config, key: Key, s: System, c: Controller, groups: seq<RuleGroup>, spec: MimirRuleSpec)
    requires Sound(s, groups, spec)
    ensures Sound(Step(cfg, key, s, Start(c)), groups, spec) && Sound(Step(cfg, key, s, Crash(c)), groups, spec)
    ensures !Vanished(s.w, Step(cfg, key, s, Start(c)).w, s.guardedUids)
    ensures !Vanished(s.w, Step(cfg, key, s, Crash(c)).w, s.guardedUids)
  {
    hide RuleOk, Evolves, SloController.Advance, PromController.Advance, MimirController.Advance, Act, Cleared;
  }

  /** The setting holds at every step of a run. */
  ghost predicate SteadyRun(
    cfg: Config, key: Key, s: System, events: seq<Event>, groups: seq<RuleGroup>, connection: Connection)
  {
    forall i | 0 <= i < |events| :: Steady(groups, connection, Run(cfg, key, s, events[..i]), events[i])
  }

  lemma {:induction false} RunSound(
    cfg: Config, key: Key, s: System, events: seq<Event>, groups: seq<RuleGroup>, connection: Connection)
    requires Initial(s) && SteadyRun(cfg, key, s, events, groups, connection)
    ensures Sound(Run(cfg, key, s, events), groups, Built(groups, connection))
  {
    hide Step, Steady, FinalizerEdits.Tracked;
    if events != [] {
      var n := |events| - 1;
      var before := events[..n];
      forall i | 0 <= i < n
        ensures Steady(groups, connection, Run(cfg, key, s, before[..i]), before[i])
      {
        assert before[..i] == events[..i];
      }
      RunSound(cfg, key, s, before, groups, connection);
      FinalizerEdits.RunTracked(cfg, key, s, before);
      StepSound(cfg, key, Run(cfg, key, s, before), events[n], groups, connection);
    }
  }

  /**
   Whatever calls fail, wherever controllers crash and whatever is deleted when: the step after which a
   MimirRule that ever carried its finalizer is gone leaves none of its groups in Mimir.
   */
  lemma NoLeakedGroups(
    cfg: Config, key: Key, s: System, events: seq<Event>, e: Event, groups: seq<RuleGroup>, connection: Connection)
    requires Initial(s) && SteadyRun(cfg, key, s, events + [e], groups, connection)
    ensures var t := Run(cfg, key, s, events); var u := Run(cfg, key, s, events + [e]);
      Vanished(t.w, u.w, t.guardedUids) ==>
        forall g | g in ToMimirGroups(groups, connection) ::
          Place(Client(connection.address, connection.targetTenant), g.name) !in u.w.ruler
  {
    hide Step, Steady, FinalizerEdits.Tracked, Sound, Initial, Run, Vanished, Names;
    var n := |events|;
    var all := events + [e];
    assert all[..n] == events && all[n] == e;
    forall i | 0 <= i < n
      ensures Steady(groups, connection, Run(cfg, key, s, events[..i]), events[i])
    {
      assert events[..i] == all[..i];
    }
    RunSound(cfg, key, s, events, groups, connection);
    FinalizerEdits.RunTracked(cfg, key, s, events);
    StepSound(cfg, key, Run(cfg, key, s, events), e, groups, connection);
    RunSnoc(cfg, key, s, events, e);
    NamesCleared(Run(cfg, key, s, all).w.ruler, ClientOf(connection), Built(groups, connection).groups);
  }

  lemma NamesCleared(ruler: Ruler, client: Client, groups: seq<MimirGroup>)
    ensures Cleared(ruler, client, Names(groups), []) ==> forall g | g in groups :: Place(client, g.name) !in ruler
  {
    if Cleared(ruler, client, Names(groups), []) {
      forall g | g in groups
        ensures Place(client, g.name) !in ruler
      {
        var i :| 0 <= i < |groups| && groups[i] == g;
        assert Names(groups)[i] == g.name;
      }
    }
  }
}
