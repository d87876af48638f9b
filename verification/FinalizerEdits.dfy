/**
 No lost updates: whatever else happens between the MimirRule controller's reads and writes, a finalizer
 edit that goes through changes the object stored at that moment in its finalizers alone.
 */
module FinalizerEdits {
  import opened Text
  import opened Selectors
  import opened Api
  import opened RuleCompiler
  import opened MimirTranslation
  import opened ObjectStore
  import opened Cluster
  import SloController
  import PromController
  import opened MimirController
  import opened JointRuns

  ghost predicate SlotsStamped(w: World)
  {
    Stamped(w.rule, w.clock) && Stamped(w.prom, w.clock)
  }

  ghost predicate SlotsEvolve(a: World, b: World)
  {
    Evolves(a.rule, a.clock, b.rule, b.clock) && Evolves(a.prom, a.clock, b.prom, b.clock)
  }

  /** The copies about to be written back, and which finalizer they lack. */
  ghost predicate Copies(pc: MimirController.Pc, w: World)
  {
    && (pc.GuardRulePut? || pc.ReleaseRulePut? ==> Copy(pc.rule, w.rule, w.clock))
    && (pc.GuardPromPut? || pc.ReleasePromPut? ==> Copy(pc.prom, w.prom, w.clock))
    && (pc.GuardRulePut? ==> RULE_FINALIZER !in pc.rule.meta.finalizers)
    && (pc.GuardPromPut? ==> PROM_FINALIZER !in pc.prom.meta.finalizers)
  }

  ghost predicate Tracked(s: System)
  {
    SlotsStamped(s.w) && Copies(s.rule, s.w)
  }

  // ----- Every step moves both slots on -----

  /** A call that leaves both slots alone. */
  ghost predicate Elsewhere(a: World, b: World)
  {
    a.rule == b.rule && a.prom == b.prom && a.clock <= b.clock
  }

  lemma ElsewhereEvolves(a: World, b: World)
    requires SlotsStamped(a) && Elsewhere(a, b)
    ensures SlotsEvolve(a, b) && SlotsStamped(b)
  {
  }

  lemma OneEvolves(a: World, b: World)
    requires SlotsStamped(a)
    requires (a.rule == b.rule && Evolves(a.prom, a.clock, b.prom, b.clock) && Stamped(b.prom, b.clock))
          || (a.prom == b.prom && Evolves(a.rule, a.clock, b.rule, b.clock) && Stamped(b.rule, b.clock))
    ensures SlotsEvolve(a, b) && SlotsStamped(b)
  {
  }

  lemma PromWritesEvolve(w: World, o: PrometheusRule, f: Fault)
    requires SlotsStamped(w)
    ensures SlotsEvolve(w, CreateProm(w, o, f).0) && SlotsStamped(CreateProm(w, o, f).0)
    ensures SlotsEvolve(w, PutProm(w, o, f).0) && SlotsStamped(PutProm(w, o, f).0)
    ensures SlotsEvolve(w, PutPromStatus(w, o, f).0) && SlotsStamped(PutPromStatus(w, o, f).0)
  {
    hide Created, Replaced, StatusReplaced, Evolves, Stamped, Copy;
    CreateEvolves(w.prom, o, w.clock, f);
    ReplaceEvolves(w.prom, o, w.clock, f);
    StatusEvolves(w.prom, o, w.clock, f);
    OneEvolves(w, CreateProm(w, o, f).0);
    OneEvolves(w, PutProm(w, o, f).0);
    OneEvolves(w, PutPromStatus(w, o, f).0);
  }

  lemma RuleWritesEvolve(w: World, o: MimirRule, f: Fault)
    requires SlotsStamped(w)
    ensures SlotsEvolve(w, CreateRule(w, o, f).0) && SlotsStamped(CreateRule(w, o, f).0)
    ensures SlotsEvolve(w, PutRule(w, o, f).0) && SlotsStamped(PutRule(w, o, f).0)
    ensures SlotsEvolve(w, PutRuleStatus(w, o, f).0) && SlotsStamped(PutRuleStatus(w, o, f).0)
  {
    hide Created, Replaced, StatusReplaced, Evolves, Stamped, Copy;
    CreateEvolves(w.rule, o, w.clock, f);
    ReplaceEvolves(w.rule, o, w.clock, f);
    StatusEvolves(w.rule, o, w.clock, f);
    OneEvolves(w, CreateRule(w, o, f).0);
    OneEvolves(w, PutRule(w, o, f).0);
    OneEvolves(w, PutRuleStatus(w, o, f).0);
  }

  lemma SloEvolves(cfg: Config, pc: SloController.Pc, w: World, f: Fault)
    requires SlotsStamped(w)
    ensures var v := SloController.Advance(cfg, pc, w, f).1; SlotsEvolve(w, v) && SlotsStamped(v)
  {
    hide SlotsEvolve, SlotsStamped, SloController.AdvanceMakingProm, SloController.AdvanceMakingRule, Attempt,
      SloController.WithReadyCondition, WithFinalizer, WithoutFinalizer, SloController.NewAlerting,
      SloController.NewInlineSli, SloController.Owned, SloController.ChooseSli, SloController.ExamineSlo;
    if SloController.MakingProm(pc) {
      MakingPromEvolves(cfg, pc, w, f);
    } else if SloController.MakingRule(pc) {
      MakingRuleEvolves(cfg, pc, w, f);
    } else {
      ElsewhereEvolves(w, SloController.Advance(cfg, pc, w, f).1);
    }
  }

  lemma MakingPromEvolves(cfg: Config, pc: SloController.Pc, w: World, f: Fault)
    requires SloController.MakingProm(pc) && SlotsStamped(w)
    ensures var v := SloController.AdvanceMakingProm(cfg, pc, w, f).1; SlotsEvolve(w, v) && SlotsStamped(v)
  {
    hide SlotsEvolve, SlotsStamped, CreateProm, PutProm, PutPromStatus, CreateRule, PutRule, PutRuleStatus, Attempt,
      StatusReplaced, SloController.Owned, SloController.CompileProm, NewMimirRule, SloController.Ready;
    match pc
    case MakeProm(_, p) => PromWritesEvolve(w, p, f);
    case PromFailed(_, p) => PromWritesEvolve(w, p, f);
    case OwnProm(slo, p) => PromWritesEvolve(w, SloController.Owned(p, slo), f);
    case _ => ElsewhereEvolves(w, SloController.AdvanceMakingProm(cfg, pc, w, f).1);
  }

  lemma MakingRuleEvolves(cfg: Config, pc: SloController.Pc, w: World, f: Fault)
    requires SloController.MakingRule(pc) && SlotsStamped(w)
    ensures var v := SloController.AdvanceMakingRule(cfg, pc, w, f).1; SlotsEvolve(w, v) && SlotsStamped(v)
  {
    hide SlotsEvolve, SlotsStamped, CreateProm, PutProm, PutPromStatus, CreateRule, PutRule, PutRuleStatus, Attempt,
      StatusReplaced, SloController.Owned, SloController.CompileProm, NewMimirRule, SloController.Ready;
    match pc
    case MakeRule(_, m) => RuleWritesEvolve(w, m, f);
    case OwnRule(slo, m) => RuleWritesEvolve(w, SloController.Owned(m, slo), f);
    case ReadyRule(m) => RuleWritesEvolve(w, m.(status := "True"), f);
    case _ => ElsewhereEvolves(w, SloController.AdvanceMakingRule(cfg, pc, w, f).1);
  }

  lemma PromEvolves(cfg: Config, pc: PromController.Pc, w: World, f: Fault)
    requires SlotsStamped(w)
    ensures var v := PromController.Advance(cfg, pc, w, f).1; SlotsEvolve(w, v) && SlotsStamped(v)
  {
    hide SlotsEvolve, SlotsStamped, PutProm, Created, Replaced, StatusReplaced, PromController.WithReady,
      PromController.Derive, PromController.ChooseSli, PromController.ExamineProm;
    var v := PromController.Advance(cfg, pc, w, f).1;
    if pc.OverwritePut? {
      PromWritesEvolve(w, pc.derived.(meta := pc.derived.meta.(version := pc.prom.meta.version)), f);
    } else {
      ElsewhereEvolves(w, v);
    }
  }

  lemma RuleEvolves(cfg: Config, pc: MimirController.Pc, w: World, f: Fault)
    requires SlotsStamped(w)
    ensures var v := MimirController.Advance(cfg, pc, w, f).1; SlotsEvolve(w, v) && SlotsStamped(v)
  {
    hide Attempt, SlotsEvolve, SlotsStamped, PutProm, PutRule, PutRuleStatus, Examine, AfterOwners, AfterPushing,
      AfterRuleGuard, AfterGuards, WithFinalizer, WithoutFinalizer;
    var v := MimirController.Advance(cfg, pc, w, f).1;
    match pc
    case ReleaseRulePut(_, m, _) => RuleWritesEvolve(w, WithoutFinalizer(m, RULE_FINALIZER), f);
    case ReleasePromPut(p, _) => PromWritesEvolve(w, WithoutFinalizer(p, PROM_FINALIZER), f);
    case GuardRulePut(_, _, m, _) => RuleWritesEvolve(w, WithFinalizer(m, RULE_FINALIZER), f);
    case GuardPromPut(_, _, p, _) => PromWritesEvolve(w, WithFinalizer(p, PROM_FINALIZER), f);
    case OverwritePut(derived, m, _) =>
      RuleWritesEvolve(w, derived.(meta := derived.meta.(version := m.meta.version)), f);
    case MarkFailed(m) => RuleWritesEvolve(w, m.(status := "False"), f);
    case MarkReadyPut(m, _) => RuleWritesEvolve(w, m.(status := "True"), f);
    case _ => ElsewhereEvolves(w, v);
  }

  lemma UserEvolves(key: Key, w: World, a: Action)
    requires SlotsStamped(w)
    ensures SlotsEvolve(w, Act(key, w, a)) && SlotsStamped(Act(key, w, a))
  {
    hide SlotsEvolve, PutProm, PutRule, DeletionRequested, Created, Replaced;
    match a
    case DeleteProm => DeleteEvolves(w.prom, w.clock); OneEvolves(w, Act(key, w, a));
    case DeleteRule => DeleteEvolves(w.rule, w.clock); OneEvolves(w, Act(key, w, a));
    case EditProm(o) =>
      if w.prom.Some? {
        PromWritesEvolve(w, o.(meta := o.meta.(version := w.prom.value.meta.version)), Fine);
      } else {
        ElsewhereEvolves(w, w);
      }
    case EditRule(o) =>
      if w.rule.Some? {
        RuleWritesEvolve(w, o.(meta := o.meta.(version := w.rule.value.meta.version)), Fine);
      } else {
        ElsewhereEvolves(w, w);
      }
    case _ => ElsewhereEvolves(w, Act(key, w, a));
  }

  // ----- Runs -----

  lemma CopiesLater(pc: MimirController.Pc, a: World, b: World)
    requires Copies(pc, a) && SlotsEvolve(a, b)
    ensures Copies(pc, b)
  {
  }

  predicate Edits(pc: MimirController.Pc)
  {
    pc.GuardRulePut? || pc.ReleaseRulePut? || pc.GuardPromPut? || pc.ReleasePromPut?
  }

  /** An edit is only ever reached from the read just before it. */
  lemma EditsFollowReads(cfg: Config, pc: MimirController.Pc, w: World, f: Fault)
    requires !pc.GuardRuleGet? && !pc.ReleaseRuleGet? && !pc.GuardPromGet? && !pc.ReleasePromGet? && !Edits(pc)
    ensures !Edits(MimirController.Advance(cfg, pc, w, f).0)
  {
    hide PutRule, PutRuleStatus, NewMimirRule, Pushes, ToMimirGroups, SloRefs, Names;
  }

  lemma EditsEnd(cfg: Config, pc: MimirController.Pc, w: World, f: Fault)
    requires Edits(pc)
    ensures !Edits(MimirController.Advance(cfg, pc, w, f).0)
  {
    hide PutProm, PutRule, NewMimirRule, WithFinalizer, WithoutFinalizer;
  }

  /** Copies about to be written were read by the very same step. */
  lemma CopiesRead(cfg: Config, pc: MimirController.Pc, w: World, f: Fault)
    requires SlotsStamped(w)
    ensures var (pc', v) := MimirController.Advance(cfg, pc, w, f); Copies(pc', v)
  {
    hide NewMimirRule, AfterPushing;
    if Edits(pc) {
      EditsEnd(cfg, pc, w, f);
      hide MimirController.Advance;
    } else if pc.GuardRuleGet? || pc.ReleaseRuleGet? || pc.GuardPromGet? || pc.ReleasePromGet? {
    } else {
      EditsFollowReads(cfg, pc, w, f);
      hide MimirController.Advance;
    }
  }

  lemma StepTracked(cfg: Config, key: Key, s: System, e: Event)
    requires Tracked(s)
    ensures Tracked(Step(cfg, key, s, e)) && SlotsEvolve(s.w, Step(cfg, key, s, e).w)
  {
    hide SlotsEvolve, SlotsStamped, Copies, SloController.Advance, PromController.Advance, MimirController.Advance,
      Act;
    match e
    case Call(SloCtl, f) =>
      SloEvolves(cfg, s.slo, s.w, f);
      CopiesLater(s.rule, s.w, Step(cfg, key, s, e).w);
    case Call(PromCtl, f) =>
      PromEvolves(cfg, s.prom, s.w, f);
      CopiesLater(s.rule, s.w, Step(cfg, key, s, e).w);
    case Call(RuleCtl, f) =>
      RuleEvolves(cfg, s.rule, s.w, f);
      CopiesRead(cfg, s.rule, s.w, f);
    case User(a) =>
      UserEvolves(key, s.w, a);
      CopiesLater(s.rule, s.w, Step(cfg, key, s, e).w);
    case _ =>
      ElsewhereEvolves(s.w, s.w);
      NothingCopied(s.w);
  }

  lemma NothingCopied(w: World)
    ensures forall o :: Copies(MimirController.Stop(o), w)
    ensures Copies(MimirController.GetProm, w)
  {
  }

  lemma {:induction false} RunTracked(cfg: Config, key: Key, s: System, events: seq<Event>)
    requires Initial(s)
    ensures Tracked(Run(cfg, key, s, events))
  {
    hide Step;
    if events != [] {
      RunTracked(cfg, key, s, events[..|events| - 1]);
      StepTracked(cfg, key, Run(cfg, key, s, events[..|events| - 1]), events[|events| - 1]);
    }
  }

  // ----- The edits -----

  /** `b` is `a` with these finalizers and nothing else changed: gone if it was being deleted and none are left. */
  ghost predicate Edited<S, T>(a: Slot<S, T>, b: Slot<S, T>, finalizers: seq<string>)
  {
    && a.Some?
    && var o := a.value.(meta := a.value.meta.(finalizers := finalizers));
       if o == a.value then b == a
       else if o.meta.deleting && finalizers == [] then b.None?
       else b.Some? && b.value == o.(meta := o.meta.(version := b.value.meta.version))
  }

  lemma EditApplied<S, T>(slot: Slot<S, T>, o: Object<S, T>, finalizers: seq<string>, clock: nat, f: Fault)
    requires Copy(o, slot, clock)
    ensures
      var r := Attempt(slot, Replaced(slot, o.(meta := o.meta.(finalizers := finalizers)), clock), f);
      && (r.reply.Done? || r.slot != slot ==> slot == Some(o) && Edited(slot, r.slot, finalizers))
      && (f == Fine && slot == Some(o) && !o.meta.deleting ==> r.reply.Done?)
  {
    hide AddsFinalizer;
  }

  /** Whether the controller's write went through as far as it can tell. */
  predicate WentOn(before: MimirController.Pc, after: MimirController.Pc)
  {
    && after != MimirController.RETRY
    && (before.GuardRulePut? ==> !after.GuardRuleGet?) && (before.ReleaseRulePut? ==> !after.ReleaseRuleGet?)
    && (before.GuardPromPut? ==> !after.GuardPromGet?) && (before.ReleasePromPut? ==> !after.ReleasePromGet?)
  }

  /**
   In every reachable state, users editing the generated objects included: if a finalizer edit goes
   through, or takes effect without the controller learning of it, the object stored just before it gains
   or loses that one finalizer, without duplicates, and nothing else.
   */
  lemma FinalizerEditsLoseNothing(cfg: Config, key: Key, s: System, events: seq<Event>, f: Fault)
    requires Initial(s)
    ensures
      var t := Run(cfg, key, s, events); var u := Step(cfg, key, t, Call(RuleCtl, f)); var a, b := t.w, u.w;
      && (t.rule.GuardRulePut? && (WentOn(t.rule, u.rule) || a.rule != b.rule) ==>
            a.rule.Some? && RULE_FINALIZER !in a.rule.value.meta.finalizers
            && Edited(a.rule, b.rule, a.rule.value.meta.finalizers + [RULE_FINALIZER]))
      && (t.rule.GuardPromPut? && (WentOn(t.rule, u.rule) || a.prom != b.prom) ==>
            a.prom.Some? && PROM_FINALIZER !in a.prom.value.meta.finalizers
            && Edited(a.prom, b.prom, a.prom.value.meta.finalizers + [PROM_FINALIZER]))
      && (t.rule.ReleaseRulePut? && (WentOn(t.rule, u.rule) || a.rule != b.rule) ==>
            a.rule.Some? && Edited(a.rule, b.rule, Remove(a.rule.value.meta.finalizers, RULE_FINALIZER)))
      && (t.rule.ReleasePromPut? && (WentOn(t.rule, u.rule) || a.prom != b.prom) ==>
            a.prom.Some? && Edited(a.prom, b.prom, Remove(a.prom.value.meta.finalizers, PROM_FINALIZER)))
  {
    hide Step, Run, Edited, Replaced, SlotsStamped, Initial, Remove, NewMimirRule, AfterPushing, AfterRelease,
      AfterGuards, AfterRuleGuard, Examine;
    RunTracked(cfg, key, s, events);
    var t := Run(cfg, key, s, events);
    var w := t.w;
    CallStep(cfg, key, t, f);
    match t.rule
    case GuardRulePut(_, _, m, _) => EditApplied(w.rule, m, m.meta.finalizers + [RULE_FINALIZER], w.clock, f);
    case ReleaseRulePut(_, m, _) => EditApplied(w.rule, m, Remove(m.meta.finalizers, RULE_FINALIZER), w.clock, f);
    case GuardPromPut(_, _, p, _) => EditApplied(w.prom, p, p.meta.finalizers + [PROM_FINALIZER], w.clock, f);
    case ReleasePromPut(p, _) => EditApplied(w.prom, p, Remove(p.meta.finalizers, PROM_FINALIZER), w.clock, f);
    case _ =>
  }

  lemma CallStep(cfg: Config, key: Key, s: System, f: Fault)
    ensures var t := Step(cfg, key, s, Call(RuleCtl, f)); (t.rule, t.w) == MimirController.Advance(cfg, s.rule, s.w, f)
  {
    hide MimirController.Advance;
  }
}
