/**
 Ownership when an SLO is deleted and created again under its name: which SLO the generated objects belong
 to, when they are all the stored one's, and how they come to belong to an earlier one.
 */
module Generations {
  import opened Text
  import opened Selectors
  import opened Api
  import opened RuleCompiler
  import opened MimirTranslation
  import opened ObjectStore
  import opened Cluster
  import opened SloController
  import PromController
  import MimirController
  import opened JointRuns
  import opened Ownership
  import FinalizerEdits
  import SloConvergence

  // ----- The SLO controller works for the stored SLO -----

  /** Past its finalizer stage the SLO controller holds a copy of the SLO, which it keeps from going. */
  predicate PastFinalizer(pc: Pc)
  {
    HasSlo(pc) && !pc.Unfinalize? && !pc.Finalize?
  }

  predicate Guards(w: World, uid: nat)
  {
    w.slo.Some? && w.slo.value.meta.uid == uid && SLO_FINALIZER in w.slo.value.meta.finalizers
  }

  predicate HoldsStored(pc: Pc, w: World)
  {
    PastFinalizer(pc) ==> Guards(w, pc.slo.meta.uid)
  }

  /** A step that keeps a guarded SLO where it is. */
  predicate KeepsGuarded(w: World, v: World)
  {
    w.slo.Some? && SLO_FINALIZER in w.slo.value.meta.finalizers ==> Guards(v, w.slo.value.meta.uid)
  }

  lemma StatusKeepsGuarded(w: World, o: Slo, f: Fault)
    ensures KeepsGuarded(w, PutSloStatus(w, o, f).0)
  {
  }

  lemma SloAlone(w: World, v: World)
    requires v.slo == w.slo
    ensures KeepsGuarded(w, v)
  {
  }

  lemma FinalizingHolds(cfg: Config, pc: Pc, w: World, f: Fault)
    requires Finalizing(pc)
    ensures var (pc', v) := AdvanceFinalizing(cfg, pc, w, f); HoldsStored(pc', v)
  {
    hide PutSlo, WithFinalizer, WithoutFinalizer;
  }

  lemma PastFinalizerHolds(cfg: Config, pc: Pc, w: World, f: Fault)
    requires !Finalizing(pc) && HoldsStored(pc, w)
    ensures var (pc', v) := Advance(cfg, pc, w, f); HoldsStored(pc', v) && KeepsGuarded(w, v)
  {
    hide AdvanceFinalizing;
    if Resolving(pc) {
      ResolvingHolds(cfg, pc, w, f);
    } else if MakingProm(pc) {
      MakingPromHolds(cfg, pc, w, f);
    } else if MakingRule(pc) {
      MakingRuleHolds(cfg, pc, w, f);
    } else if Concluding(pc) {
      ConcludingHolds(cfg, pc, w, f);
    }
  }

  lemma ResolvingHolds(cfg: Config, pc: Pc, w: World, f: Fault)
    requires Resolving(pc) && HoldsStored(pc, w)
    ensures var (pc', v) := AdvanceResolving(cfg, pc, w, f); HoldsStored(pc', v) && KeepsGuarded(w, v)
  {
    hide Stored, Tick, Get, StatusReplaced, PutSloStatus, Attempt, NewInlineSli, InlineName, Created, Replaced;
    match pc {
      case SourceMissing(slo) => StatusKeepsGuarded(w, SloController.Ready(slo, "False"), f);
      case _ => SloAlone(w, AdvanceResolving(cfg, pc, w, f).1);
    }
  }

  lemma MakingPromHolds(cfg: Config, pc: Pc, w: World, f: Fault)
    requires MakingProm(pc) && HoldsStored(pc, w)
    ensures var (pc', v) := AdvanceMakingProm(cfg, pc, w, f); HoldsStored(pc', v) && KeepsGuarded(w, v)
  {
    hide PutSloStatus, Attempt, CreatePrometheusRule, SloController.Owned, Created, Replaced, StatusReplaced;
    match pc {
      case MarkReady(slo) => StatusKeepsGuarded(w, SloController.Ready(slo, "True"), f);
      case _ => SloAlone(w, AdvanceMakingProm(cfg, pc, w, f).1);
    }
  }

  lemma MakingRuleHolds(cfg: Config, pc: Pc, w: World, f: Fault)
    requires MakingRule(pc) && HoldsStored(pc, w)
    ensures var (pc', v) := AdvanceMakingRule(cfg, pc, w, f); HoldsStored(pc', v) && KeepsGuarded(w, v)
  {
    hide Tick, PutSloStatus, Attempt, NewMimirRule, SloController.Owned, Created, Replaced, StatusReplaced;
    match pc {
      case RuleFailed(slo) => StatusKeepsGuarded(w, slo, f);
      case ReadySlo(slo, _) => StatusKeepsGuarded(w, SloController.Ready(slo, "True"), f);
      case _ => SloAlone(w, AdvanceMakingRule(cfg, pc, w, f).1);
    }
  }

  lemma ConcludingHolds(cfg: Config, pc: Pc, w: World, f: Fault)
    requires Concluding(pc) && HoldsStored(pc, w)
    ensures var (pc', v) := AdvanceConcluding(cfg, pc, w, f); HoldsStored(pc', v) && KeepsGuarded(w, v)
  {
    hide PutSloStatus, Attempt, NewAlerting, SloController.Owned, Created, Replaced, WithReadyCondition;
    match pc {
      case MarkFalse(slo, message, _) =>
        StatusKeepsGuarded(w, WithReadyCondition(slo, "False", message, w.now), f);
      case Conclude(slo) =>
        StatusKeepsGuarded(w, WithReadyCondition(slo, "True", "PrometheusRule created", w.now), f);
      case _ => SloAlone(w, AdvanceConcluding(cfg, pc, w, f).1);
    }
  }

  lemma PromCallKeepsGuarded(cfg: Config, pc: PromController.Pc, w: World, f: Fault)
    ensures KeepsGuarded(w, PromController.Advance(cfg, pc, w, f).1)
  {
    hide PutSloStatus, Attempt, Replaced, PromController.ExamineProm, PromController.ChooseSli, PromController.Derive,
      PromController.WithReady, KeepsGuarded;
    match pc
    case SliMissing(slo) => StatusKeepsGuarded(w, PromController.WithReady(slo, w.now), f);
    case NoIndicator(slo) => StatusKeepsGuarded(w, PromController.WithReady(slo, w.now), f);
    case TouchPut(_, slo, _, _) => StatusKeepsGuarded(w, slo, f);
    case _ => SloAlone(w, PromController.Advance(cfg, pc, w, f).1);
  }

  lemma RuleCallKeepsGuarded(cfg: Config, pc: MimirController.Pc, w: World, f: Fault)
    ensures KeepsGuarded(w, MimirController.Advance(cfg, pc, w, f).1)
  {
    hide Attempt, MimirController.Examine, MimirController.AfterOwners, MimirController.AfterPushing,
      MimirController.AfterRuleGuard, MimirController.AfterGuards, WithFinalizer, WithoutFinalizer, Replaced,
      StatusReplaced, KeepsGuarded;
    SloAlone(w, MimirController.Advance(cfg, pc, w, f).1);
  }

  lemma UserKeepsGuarded(key: Key, w: World, a: Action)
    ensures KeepsGuarded(w, Act(key, w, a))
  {
    hide AddsFinalizer;
    if w.slo.Some? && a.EditSlo? {
      NoneAdded(w.slo.value.meta);
    }
  }

  lemma NothingAdded(before: Meta, after: Meta)
    requires after.finalizers == []
    ensures !AddsFinalizer(before, after)
  {
  }

  lemma NoneAdded(meta: Meta)
    ensures forall after: Meta :: after.finalizers == meta.finalizers ==> !AddsFinalizer(meta, after)
  {
  }

  lemma StepHolds(cfg: Config, key: Key, s: System, e: Event)
    requires HoldsStored(s.slo, s.w)
    ensures HoldsStored(Step(cfg, key, s, e).slo, Step(cfg, key, s, e).w)
  {
    hide SloController.Advance, PromController.Advance, MimirController.Advance, Act;
    match e
    case Call(SloCtl, f) =>
      if Finalizing(s.slo) {
        FinalizingHolds(cfg, s.slo, s.w, f);
        AdvancesFinalizing(cfg, s.slo, s.w, f);
      } else {
        PastFinalizerHolds(cfg, s.slo, s.w, f);
      }
    case Call(PromCtl, f) => PromCallKeepsGuarded(cfg, s.prom, s.w, f);
    case Call(RuleCtl, f) => RuleCallKeepsGuarded(cfg, s.rule, s.w, f);
    case User(a) => UserKeepsGuarded(key, s.w, a);
    case _ =>
  }

  lemma AdvancesFinalizing(cfg: Config, pc: Pc, w: World, f: Fault)
    requires Finalizing(pc)
    ensures Advance(cfg, pc, w, f) == AdvanceFinalizing(cfg, pc, w, f)
  {
    hide AdvanceFinalizing;
  }

  /**
   In every reachable state, outside edits included: past its finalizer stage the SLO controller's copy is of
   the SLO now stored, never of an earlier one of the name.
   */
  lemma {:induction false} SloCopyIsStored(cfg: Config, key: Key, s: System, events: seq<Event>)
    requires Initial(s)
    ensures var t := Run(cfg, key, s, events);
      PastFinalizer(t.slo) ==>
        && t.w.slo.Some? && t.w.slo.value.meta.uid == t.slo.slo.meta.uid
        && SLO_FINALIZER in t.w.slo.value.meta.finalizers
  {
    hide Step;
    if events != [] {
      SloCopyIsStored(cfg, key, s, events[..|events| - 1]);
      StepHolds(cfg, key, Run(cfg, key, s, events[..|events| - 1]), events[|events| - 1]);
    }
  }

  // ----- One generation -----

  /** Everything stored or held is of these SLOs, given by uid. */
  ghost predicate AllOf(s: System, key: Key, uids: set<nat>)
  {
    Ownership.Owned(s.(sloUids := uids), key)
  }

  /** The history of uids steers nothing. */
  lemma StepForgets(cfg: Config, key: Key, s: System, uids: set<nat>, e: Event)
    ensures var t, t' := Step(cfg, key, s, e), Step(cfg, key, s.(sloUids := uids), e);
      t' == t.(sloUids := t'.sloUids) && uids <= t'.sloUids <= uids + SloUid(t.w)
  {
    hide SloController.Advance, PromController.Advance, MimirController.Advance, Act, NewSliUids, GuardedUid;
  }

  lemma StepAllOf(cfg: Config, key: Key, s: System, uids: set<nat>, e: Event)
    requires AllOf(s, key, uids) && !Intrusion(e) && SloUid(Step(cfg, key, s, e).w) <= uids
    ensures AllOf(Step(cfg, key, s, e), key, uids)
  {
    hide Ownership.Owned, Step, SloUid;
    StepOwned(cfg, key, s.(sloUids := uids), e);
    StepForgets(cfg, key, s, uids, e);
    var t, t' := Step(cfg, key, s, e), Step(cfg, key, s.(sloUids := uids), e);
    assert t'.sloUids == uids;
    assert t' == t.(sloUids := uids);
  }

  /** At every point of a run the stored SLO, if any, is one of these. */
  ghost predicate OnlySlos(cfg: Config, key: Key, s: System, events: seq<Event>, uids: set<nat>)
  {
    forall i | 0 <= i <= |events| :: SloUid(Run(cfg, key, s, events[..i]).w) <= uids
  }

  /**
   From any state in which everything is of these SLOs, for as long as only these are stored: everything
   generated stays theirs, whatever fails, crashes or is deleted.
   */
  lemma {:induction false} GenerationOwned(cfg: Config, key: Key, s: System, events: seq<Event>, uids: set<nat>)
    requires AllOf(s, key, uids) && OnlySlos(cfg, key, s, events, uids)
    requires forall i :: 0 <= i < |events| ==> !Intrusion(events[i])
    ensures var t := Run(cfg, key, s, events);
      AllOf(t, key, uids) && ChildrenOwned(t.w, key, uids, t.inlineUids)
  {
    hide Step, AllOf, SloUid, ChildrenOwned;
    if events == [] {
      AllOfChildren(s, key, uids);
    } else {
      var n := |events| - 1;
      var before := events[..n];
      forall i | 0 <= i <= n
        ensures SloUid(Run(cfg, key, s, before[..i]).w) <= uids
      {
        assert before[..i] == events[..i];
      }
      GenerationOwned(cfg, key, s, before, uids);
      assert events[..n + 1] == events;
      StepAllOf(cfg, key, Run(cfg, key, s, before), uids, events[n]);
      AllOfChildren(Run(cfg, key, s, events), key, uids);
    }
  }

  lemma AllOfChildren(s: System, key: Key, uids: set<nat>)
    requires AllOf(s, key, uids)
    ensures ChildrenOwned(s.w, key, uids, s.inlineUids)
  {
    hide OwnedBy, SloHolds, PromHolds, RuleHolds;
  }

  // ----- Re-creation -----

  /** No child of an earlier SLO is left. */
  predicate NoChildLeft(s: System)
  {
    && s.w.prom.None? && s.w.rule.None?
    && forall n | n in s.w.slis :: s.w.slis[n].meta.uid !in s.inlineUids
  }

  /** No pass holds a copy of an SLO, or anything made for one. */
  predicate NothingHeld(s: System)
  {
    && !HasSlo(s.slo)
    && !(s.prom.GetSli? || s.prom.SliMissing? || s.prom.NoIndicator? || s.prom.TouchPut?)
    && !(s.prom.OverwriteGet? || s.prom.OverwritePut?)
    && !RuleHasSlo(s.rule) && !s.rule.ReleaseRulePut? && !s.rule.ReleasePromPut?
    && !(s.rule.OverwriteGet? || s.rule.OverwritePut?)
  }

  lemma {:induction false} UidsPast(cfg: Config, key: Key, s: System, events: seq<Event>)
    requires Initial(s) && forall i :: 0 <= i < |events| ==> !Intrusion(events[i])
    ensures var t := Run(cfg, key, s, events); forall u | u in t.sloUids :: u <= t.w.clock
  {
    hide Step;
    if events != [] {
      var before := events[..|events| - 1];
      UidsPast(cfg, key, s, before);
      OwnershipAlways(cfg, key, s, before);
      FinalizerEdits.RunTracked(cfg, key, s, before);
      UidStep(cfg, key, Run(cfg, key, s, before), events[|events| - 1]);
    }
  }

  lemma UidStep(cfg: Config, key: Key, s: System, e: Event)
    requires (forall u | u in s.sloUids :: u <= s.w.clock) && FinalizerEdits.Tracked(s) && Ownership.Owned(s, key)
    ensures var t := Step(cfg, key, s, e); forall u | u in t.sloUids :: u <= t.w.clock
  {
    hide SloController.Advance, PromController.Advance, MimirController.Advance, Act, FinalizerEdits.Tracked,
      Ownership.Owned;
    FinalizerEdits.StepTracked(cfg, key, s, e);
    SloUidStep(cfg, key, s, e);
  }

  predicate KeepsUid(w: World, v: World)
  {
    v.slo.Some? ==> w.slo.Some? && v.slo.value.meta.uid == w.slo.value.meta.uid
  }

  lemma PutKeepsUid(w: World, o: Slo, f: Fault)
    ensures KeepsUid(w, PutSlo(w, o, f).0) && KeepsUid(w, PutSloStatus(w, o, f).0)
  {
    hide AddsFinalizer;
  }

  lemma SameKeepsUid(w: World, v: World)
    requires v.slo == w.slo
    ensures KeepsUid(w, v)
  {
  }

  lemma MakingKeepsUid(cfg: Config, pc: Pc, w: World, f: Fault)
    requires MakingProm(pc) || MakingRule(pc)
    ensures KeepsUid(w, Advance(cfg, pc, w, f).1)
  {
    hide KeepsUid, PutSlo, PutSloStatus, Attempt, NewMimirRule, CreatePrometheusRule, NewAlerting, NewInlineSli,
      WithReadyCondition, WithFinalizer, WithoutFinalizer, CompileProm, SloController.Owned, ExamineSlo, ChooseSli,
      SloController.Ready, AdvanceFinalizing, AdvanceResolving, AdvanceConcluding;
    match pc
    case MarkReady(slo) => PutKeepsUid(w, SloController.Ready(slo, "True"), f);
    case RuleFailed(slo) => PutKeepsUid(w, slo, f);
    case ReadySlo(slo, _) => PutKeepsUid(w, SloController.Ready(slo, "True"), f);
    case _ => SameKeepsUid(w, Advance(cfg, pc, w, f).1);
  }

  lemma SloCallKeepsUid(cfg: Config, pc: Pc, w: World, f: Fault)
    ensures KeepsUid(w, Advance(cfg, pc, w, f).1)
  {
    hide KeepsUid, PutSlo, PutSloStatus, Attempt, NewMimirRule, CreatePrometheusRule, NewAlerting, NewInlineSli,
      WithReadyCondition, WithFinalizer, WithoutFinalizer, CompileProm, SloController.Owned, ExamineSlo, ChooseSli,
      SloController.Ready, AdvanceMakingProm, AdvanceMakingRule;
    if MakingProm(pc) || MakingRule(pc) {
      MakingKeepsUid(cfg, pc, w, f);
    } else {
      match pc
      case Unfinalize(slo) => PutKeepsUid(w, WithoutFinalizer(slo, SLO_FINALIZER), f);
      case Finalize(slo) => PutKeepsUid(w, WithFinalizer(slo, SLO_FINALIZER), f);
      case SourceMissing(slo) => PutKeepsUid(w, SloController.Ready(slo, "False"), f);
      case MarkFalse(slo, message, _) => PutKeepsUid(w, WithReadyCondition(slo, "False", message, w.now), f);
      case Conclude(slo) => PutKeepsUid(w, WithReadyCondition(slo, "True", "PrometheusRule created", w.now), f);
      case _ => SameKeepsUid(w, Advance(cfg, pc, w, f).1);
    }
  }

  lemma PromCallKeepsUid(cfg: Config, pc: PromController.Pc, w: World, f: Fault)
    ensures KeepsUid(w, PromController.Advance(cfg, pc, w, f).1)
  {
    hide KeepsUid, PutSloStatus, Attempt, PromController.ExamineProm, PromController.ChooseSli,
      PromController.Derive, PromController.WithReady;
    match pc
    case SliMissing(slo) => PutKeepsUid(w, PromController.WithReady(slo, w.now), f);
    case NoIndicator(slo) => PutKeepsUid(w, PromController.WithReady(slo, w.now), f);
    case TouchPut(_, slo, _, _) => PutKeepsUid(w, slo, f);
    case _ => SameKeepsUid(w, PromController.Advance(cfg, pc, w, f).1);
  }

  lemma RuleCallLeavesSlo(cfg: Config, pc: MimirController.Pc, w: World, f: Fault)
    ensures MimirController.Advance(cfg, pc, w, f).1.slo == w.slo
  {
    hide Attempt, MimirController.Examine, MimirController.AfterOwners, MimirController.AfterPushing,
      MimirController.AfterRuleGuard, MimirController.AfterGuards, WithFinalizer, WithoutFinalizer;
  }

  /** Only a creation numbers an SLO, and with the clock of that step. */
  lemma UserNumbers(key: Key, w: World, a: Action)
    ensures var v := Act(key, w, a); KeepsUid(w, v) || (v.slo.Some? && v.slo.value.meta.uid == v.clock)
  {
    hide AddsFinalizer;
  }

  /** A stored SLO was there before or has just been numbered. */
  lemma SloUidStep(cfg: Config, key: Key, s: System, e: Event)
    requires Ownership.Owned(s, key)
    ensures var t := Step(cfg, key, s, e); forall u | u in SloUid(t.w) :: u in s.sloUids || u <= t.w.clock
  {
    hide SloController.Advance, PromController.Advance, MimirController.Advance, Act, SlisOwned, SloHolds, PromHolds,
      RuleHolds;
    match e
    case Call(SloCtl, f) => SloCallKeepsUid(cfg, s.slo, s.w, f);
    case Call(PromCtl, f) => PromCallKeepsUid(cfg, s.prom, s.w, f);
    case Call(RuleCtl, f) => RuleCallLeavesSlo(cfg, s.rule, s.w, f);
    case User(a) => UserNumbers(key, s.w, a);
    case _ =>
  }

  /**
   The moment an SLO is created, again or for the first time: the children are the new SLO's exactly when none
   is left, and everything that is held is too exactly when, besides, no pass holds anything of an SLO.
   */
  lemma RecreationIff(
    cfg: Config, key: Key, s: System, events: seq<Event>, labels: Labels, annotations: Labels, spec: SloSpec)
    requires Initial(s) && forall i :: 0 <= i < |events| ==> !Intrusion(events[i])
    requires Run(cfg, key, s, events).w.slo.None? && key.name != ""
    ensures var t := Run(cfg, key, s, events); var u := Step(cfg, key, t, User(CreateSlo(labels, annotations, spec)));
      && u.w.slo.Some?
      && (ChildrenOwned(u.w, key, {u.w.slo.value.meta.uid}, u.inlineUids) <==> NoChildLeft(t))
      && (AllOf(u, key, {u.w.slo.value.meta.uid}) <==> NoChildLeft(t) && NothingHeld(t))
  {
    hide Run, Step, Initial, Ownership.Owned, AllOf, ChildrenOwned, NoChildLeft, NothingHeld;
    OwnershipAlways(cfg, key, s, events);
    UidsPast(cfg, key, s, events);
    CreationIff(cfg, key, Run(cfg, key, s, events), labels, annotations, spec);
  }

  lemma CreationIff(cfg: Config, key: Key, t: System, labels: Labels, annotations: Labels, spec: SloSpec)
    requires Ownership.Owned(t, key) && forall u | u in t.sloUids :: u <= t.w.clock
    requires t.w.slo.None? && key.name != ""
    ensures var u := Step(cfg, key, t, User(CreateSlo(labels, annotations, spec)));
      && u.w.slo.Some?
      && (ChildrenOwned(u.w, key, {u.w.slo.value.meta.uid}, u.inlineUids) <==> NoChildLeft(t))
      && (AllOf(u, key, {u.w.slo.value.meta.uid}) <==> NoChildLeft(t) && NothingHeld(t))
  {
    hide OwnedBy, HoldsInline, ChildrenOwned, NoChildLeft, NothingHeld, SlisOwned;
    var u := Step(cfg, key, t, User(CreateSlo(labels, annotations, spec)));
    var uid := t.w.clock + 1;
    assert u.w == t.w.(slo := u.w.slo, clock := uid) && u.w.slo.Some? && u.w.slo.value.meta.uid == uid;
    LeftIff(t, u, key, uid);
    HeldIff(t, u, key, uid);
  }

  /** An owner among earlier SLOs is not the new one. */
  lemma EarlierOwner(meta: Meta, key: Key, uids: set<nat>, uid: nat)
    requires uid !in uids
    ensures !(OwnedBy(meta, key, uids) && OwnedBy(meta, key, {uid}))
  {
  }

  predicate JustCreated(t: System, u: System, key: Key, uid: nat)
  {
    && t.w.slo.None? && u.w == t.w.(slo := u.w.slo, clock := uid) && uid == t.w.clock + 1 && uid !in t.sloUids
    && u.w.slo.Some? && OurSlo(u.w.slo.value, key, {uid})
    && u.slo == t.slo && u.prom == t.prom && u.rule == t.rule && u.inlineUids == t.inlineUids
  }

  lemma LeftIff(t: System, u: System, key: Key, uid: nat)
    requires WorldOwned(t.w, key, t.sloUids, t.inlineUids) && JustCreated(t, u, key, uid)
    ensures ChildrenOwned(u.w, key, {uid}, u.inlineUids) <==> NoChildLeft(t)
    ensures NoChildLeft(t) ==> WorldOwned(u.w, key, {uid}, u.inlineUids)
  {
    hide OwnedBy, OurSlo;
    if t.w.prom.Some? {
      EarlierOwner(t.w.prom.value.meta, key, t.sloUids, uid);
    }
    if t.w.rule.Some? {
      EarlierOwner(t.w.rule.value.meta, key, t.sloUids, uid);
    }
    forall n | n in t.w.slis && t.w.slis[n].meta.uid in t.inlineUids
      ensures !OwnedBy(t.w.slis[n].meta, key, {uid})
    {
      EarlierOwner(t.w.slis[n].meta, key, t.sloUids, uid);
    }
  }

  lemma HeldIff(t: System, u: System, key: Key, uid: nat)
    requires Ownership.Owned(t, key) && JustCreated(t, u, key, uid)
    ensures AllOf(u, key, {uid}) <==> NoChildLeft(t) && NothingHeld(t)
  {
    LeftIff(t, u, key, uid);
    if AllOf(u, key, {uid}) {
      AllOfChildren(u, key, {uid});
    }
    hide ChildrenOwned, NoChildLeft, WorldOwned;
  }

  /**
   So every clean start gives a clean generation: if no child is left and nothing is held when an SLO is
   created, then for as long as no other SLO of the name is stored, all children are the new SLO's.
   */
  lemma CleanStart(
    cfg: Config, key: Key, s: System, events: seq<Event>, labels: Labels, annotations: Labels, spec: SloSpec,
    later: seq<Event>)
    requires Initial(s) && forall i :: 0 <= i < |events| ==> !Intrusion(events[i])
    requires forall i :: 0 <= i < |later| ==> !Intrusion(later[i])
    requires var t := Run(cfg, key, s, events); t.w.slo.None? && NoChildLeft(t) && NothingHeld(t)
    requires key.name != ""
    requires var u := Step(cfg, key, Run(cfg, key, s, events), User(CreateSlo(labels, annotations, spec)));
      OnlySlos(cfg, key, u, later, SloUid(u.w))
    ensures var u := Step(cfg, key, Run(cfg, key, s, events), User(CreateSlo(labels, annotations, spec)));
      var v := Run(cfg, key, u, later);
      && u.w.slo.Some?
      && ChildrenOwned(v.w, key, {u.w.slo.value.meta.uid}, v.inlineUids)
      && (v.w.slo.Some? ==> v.w.slo.value.meta.uid == u.w.slo.value.meta.uid)
  {
    hide Run, Step, Initial, NoChildLeft, NothingHeld, AllOf, ChildrenOwned;
    RecreationIff(cfg, key, s, events, labels, annotations, spec);
    var u := Step(cfg, key, Run(cfg, key, s, events), User(CreateSlo(labels, annotations, spec)));
    GenerationOwned(cfg, key, u, later, SloUid(u.w));
    assert later[..|later|] == later;
  }

  // ----- Whom the SLO controller makes children for -----

  /** What the SLO controller is about to store is for the SLO it holds. */
  predicate MadeForHeld(pc: Pc, key: Key)
  {
    && (pc.MakeProm? || pc.OwnProm? ==> OwnedBy(pc.prom.meta, key, {pc.slo.meta.uid}))
    && (pc.MakeRule? || pc.OwnRule? ==> OwnedBy(pc.rule.meta, key, {pc.slo.meta.uid}))
  }

  lemma CreatedAsGiven<S, T>(slot: Slot<S, T>, o: Object<S, T>, clock: nat, f: Fault)
    ensures var r := Attempt(slot, Created(slot, o, clock), f);
      r.reply.Done? ==> r.slot == Some(r.reply.obj) && r.reply.obj.meta.owners == o.meta.owners
  {
  }

  lemma MakingPromForHeld(cfg: Config, pc: Pc, w: World, f: Fault, key: Key)
    requires MakingProm(pc) && MadeForHeld(pc, key) && pc.slo.meta.name == key.name
    ensures MadeForHeld(AdvanceMakingProm(cfg, pc, w, f).0, key)
  {
    hide CreatePrometheusRule, PutSloStatus, PutProm, PutPromStatus, Created, OwnedBy;
    match pc {
      case GetProm(slo, _, sli) => CompiledOwned(cfg, slo, sli, key, {slo.meta.uid});
      case MakeProm(slo, p) =>
        CreatedAsGiven(w.prom, p, w.clock, f);
        if CreateProm(w, p, f).1.Done? {
          OwnersDecide(CreateProm(w, p, f).1.obj.meta, p.meta, key, {slo.meta.uid});
        }
      case _ =>
    }
  }

  lemma MakingRuleForHeld(cfg: Config, pc: Pc, w: World, f: Fault, key: Key)
    requires MakingRule(pc) && MadeForHeld(pc, key) && (!pc.ReadyRule? ==> pc.slo.meta.name == key.name)
    ensures MadeForHeld(AdvanceMakingRule(cfg, pc, w, f).0, key)
  {
    hide NewMimirRule, PutSloStatus, PutRule, PutRuleStatus, Created, OwnedBy;
    match pc {
      case GetRule(slo, ds, p) => DerivedOwned(slo, p, ds.spec, key, {slo.meta.uid});
      case MakeRule(slo, m) =>
        CreatedAsGiven(w.rule, m, w.clock, f);
        if CreateRule(w, m, f).1.Done? {
          OwnersDecide(CreateRule(w, m, f).1.obj.meta, m.meta, key, {slo.meta.uid});
        }
      case _ =>
    }
  }

  lemma OthersMakeNothing(cfg: Config, pc: Pc, w: World, f: Fault, key: Key)
    requires !MakingProm(pc) && !MakingRule(pc)
    ensures MadeForHeld(Advance(cfg, pc, w, f).0, key)
  {
    hide AdvanceMakingProm, AdvanceMakingRule, PutSlo, PutSloStatus, CreateAlerting, PutAlerting, CreateSli, PutSli,
      NewAlerting, NewInlineSli, WithReadyCondition, WithFinalizer, WithoutFinalizer, SloController.Owned, InlineName,
      OwnedBy;
  }

  lemma StepMadeForHeld(cfg: Config, key: Key, s: System, e: Event)
    requires MadeForHeld(s.slo, key) && Ownership.Owned(s, key)
    ensures MadeForHeld(Step(cfg, key, s, e).slo, key)
  {
    hide AdvanceFinalizing, AdvanceResolving, AdvanceMakingProm, AdvanceMakingRule, AdvanceConcluding,
      PromController.Advance, MimirController.Advance, Act, WorldOwned, PromHolds, RuleHolds, OwnedBy, HoldsInline;
    match e
    case Call(SloCtl, f) =>
      if MakingProm(s.slo) {
        MakingPromForHeld(cfg, s.slo, s.w, f, key);
      } else if MakingRule(s.slo) {
        MakingRuleForHeld(cfg, s.slo, s.w, f, key);
      } else {
        OthersMakeNothing(cfg, s.slo, s.w, f, key);
      }
    case _ =>
  }

  lemma {:induction false} RunMadeForHeld(cfg: Config, key: Key, s: System, events: seq<Event>)
    requires Initial(s) && forall i :: 0 <= i < |events| ==> !Intrusion(events[i])
    ensures MadeForHeld(Run(cfg, key, s, events).slo, key)
  {
    hide Step, Ownership.Owned;
    if events != [] {
      var before := events[..|events| - 1];
      RunMadeForHeld(cfg, key, s, before);
      OwnershipAlways(cfg, key, s, before);
      StepMadeForHeld(cfg, key, Run(cfg, key, s, before), events[|events| - 1]);
    }
  }

  /** The calls in which the SLO controller stores a PrometheusRule or MimirRule. */
  predicate Makes(pc: Pc)
  {
    pc.MakeProm? || pc.OwnProm? || pc.MakeRule? || pc.OwnRule?
  }

  /**
   In every reachable state, whatever was deleted and created before: what the SLO controller writes when it
   makes a PrometheusRule or MimirRule belongs to the SLO stored at that moment.
   */
  lemma SloCallsMakeForStored(cfg: Config, key: Key, s: System, events: seq<Event>, f: Fault)
    requires Initial(s) && forall i :: 0 <= i < |events| ==> !Intrusion(events[i])
    requires Makes(Run(cfg, key, s, events).slo)
    ensures var t := Run(cfg, key, s, events); var v := Step(cfg, key, t, Call(SloCtl, f)).w;
      && t.w.slo.Some?
      && (v.prom != t.w.prom && v.prom.Some? ==> OwnedBy(v.prom.value.meta, key, {t.w.slo.value.meta.uid}))
      && (v.rule != t.w.rule && v.rule.Some? ==> OwnedBy(v.rule.value.meta, key, {t.w.slo.value.meta.uid}))
  {
    hide Run, Initial, Step, SlotsOwned, SlisOwned, PromHolds, RuleHolds, OwnedBy;
    OwnershipAlways(cfg, key, s, events);
    RunMadeForHeld(cfg, key, s, events);
    SloCopyIsStored(cfg, key, s, events);
    MakesForHeld(cfg, key, Run(cfg, key, s, events), f);
  }

  lemma MakesForHeld(cfg: Config, key: Key, t: System, f: Fault)
    requires Makes(t.slo) && MadeForHeld(t.slo, key) && t.slo.slo.meta.name == key.name
    ensures var v := Step(cfg, key, t, Call(SloCtl, f)).w;
      && (v.prom != t.w.prom && v.prom.Some? ==> OwnedBy(v.prom.value.meta, key, {t.slo.slo.meta.uid}))
      && (v.rule != t.w.rule && v.rule.Some? ==> OwnedBy(v.rule.value.meta, key, {t.slo.slo.meta.uid}))
  {
    hide AdvanceFinalizing, AdvanceResolving, AdvanceConcluding, OwnedBy, SloController.Owned, Replaced, Created,
      Attempt;
    var slo, uids := t.slo.slo, {t.slo.slo.meta.uid};
    match t.slo
    case MakeProm(_, p) => WrittenBy(t.w.prom, p, t.w.clock, f, key, uids);
    case OwnProm(_, p) =>
      OwnedOnce(p, slo, key, uids);
      WrittenBy(t.w.prom, SloController.Owned(p, slo), t.w.clock, f, key, uids);
    case MakeRule(_, m) => WrittenBy(t.w.rule, m, t.w.clock, f, key, uids);
    case OwnRule(_, m) =>
      OwnedOnce(m, slo, key, uids);
      WrittenBy(t.w.rule, SloController.Owned(m, slo), t.w.clock, f, key, uids);
  }

  /** A write that changes the slot leaves the given owners there. */
  lemma WrittenBy<S, T>(slot: Slot<S, T>, o: Object<S, T>, clock: nat, f: Fault, key: Key, uids: set<nat>)
    requires OwnedBy(o.meta, key, uids)
    ensures var v := Attempt(slot, Created(slot, o, clock), f).slot;
      v != slot && v.Some? ==> OwnedBy(v.value.meta, key, uids)
    ensures var v := Attempt(slot, Replaced(slot, o, clock), f).slot;
      v != slot && v.Some? ==> OwnedBy(v.value.meta, key, uids)
  {
    hide AddsFinalizer;
  }

  // ----- How a child comes to belong to an earlier SLO -----

  /** An overwrite that reaches the store, is not outdated and adds no finalizer to an object being deleted. */
  predicate GoesThrough<S, T>(stored: Object<S, T>, derived: Object<S, T>, version: nat, f: Fault)
  {
    && f != Dropped && stored.meta.version == version
    && !(stored.meta.deleting && AddsFinalizer(stored.meta, derived.meta))
  }

  /** What an overwrite leaves: the derived object's owner if it goes through, the former owner otherwise. */
  lemma OverwriteOwner<S, T>(
    slot: Slot<S, T>, derived: Object<S, T>, version: nat, clock: nat, f: Fault, key: Key, uids: set<nat>)
    requires slot.Some?
    ensures
      var v := Attempt(slot, Replaced(slot, derived.(meta := derived.meta.(version := version)), clock), f).slot;
      v.Some? ==>
        (OwnedBy(v.value.meta, key, uids) <==>
          OwnedBy(if GoesThrough(slot.value, derived, version, f) then derived.meta else slot.value.meta, key, uids))
  {
    var o := derived.(meta := derived.meta.(version := version));
    SameAdded(slot.value.meta, derived.meta, o.meta);
    hide AddsFinalizer;
  }

  lemma SameAdded(before: Meta, a: Meta, b: Meta)
    requires a.finalizers == b.finalizers
    ensures AddsFinalizer(before, a) <==> AddsFinalizer(before, b)
  {
  }

  /**
   The PrometheusRule controller's overwrite, by a pass that may have read an earlier SLO: afterwards the
   PrometheusRule is SLO `uid`'s exactly when the derived object was, if it went through, and when the stored
   one was, if it did not.
   */
  lemma PromOverwriteOwnerIff(cfg: Config, pc: PromController.Pc, w: World, f: Fault, key: Key, uid: nat)
    requires pc.OverwritePut? && w.prom.Some?
    ensures var v := PromController.Advance(cfg, pc, w, f).1;
      v.prom.Some? ==>
        (OwnedBy(v.prom.value.meta, key, {uid}) <==>
          if GoesThrough(w.prom.value, pc.derived, pc.prom.meta.version, f)
          then OwnedBy(pc.derived.meta, key, {uid}) else OwnedBy(w.prom.value.meta, key, {uid}))
  {
    hide Attempt, Replaced, OwnedBy, GoesThrough;
    OverwriteOwner(w.prom, pc.derived, pc.prom.meta.version, w.clock, f, key, {uid});
  }

  /** Likewise the MimirRule controller's overwrite. */
  lemma RuleOverwriteOwnerIff(cfg: Config, pc: MimirController.Pc, w: World, f: Fault, key: Key, uid: nat)
    requires pc.OverwritePut? && w.rule.Some?
    ensures var v := MimirController.Advance(cfg, pc, w, f).1;
      v.rule.Some? ==>
        (OwnedBy(v.rule.value.meta, key, {uid}) <==>
          if GoesThrough(w.rule.value, pc.derived, pc.rule.meta.version, f)
          then OwnedBy(pc.derived.meta, key, {uid}) else OwnedBy(w.rule.value.meta, key, {uid}))
  {
    hide Attempt, Replaced, OwnedBy, MimirController.Again, GoesThrough;
    OverwriteOwner(w.rule, pc.derived, pc.rule.meta.version, w.clock, f, key, {uid});
  }

  // ----- A run in which it happens -----

  predicate NoIntrusion(events: seq<Event>)
  {
    forall i | 0 <= i < |events| :: !Intrusion(events[i])
  }

  lemma Go(cfg: Config, key: Key, s: System, events: seq<Event>, e: Event) returns (longer: seq<Event>)
    requires NoIntrusion(events) && !Intrusion(e)
    ensures NoIntrusion(longer) && Run(cfg, key, s, longer) == Step(cfg, key, Run(cfg, key, s, events), e)
  {
    hide Step;
    longer := events + [e];
    RunSnoc(cfg, key, s, events, e);
  }

  /** An SLO by reference, with its datasource and SLI there, that compiles. */
  predicate Makeable(cfg: Config, w: World, annotations: Labels, spec: SloSpec)
  {
    && Get(annotations, "osko.dev/datasourceRef") in w.sources
    && spec.indicatorRef.Some? && spec.indicatorRef.value in w.slis
    && SloConvergence.Compiles(cfg, NO_SLO.(spec := spec), w.slis[spec.indicatorRef.value].spec)
  }

  /** A world with an untouched SLO of this spec. */
  predicate Fresh(w: World, key: Key, annotations: Labels, spec: SloSpec, finalizers: seq<string>)
  {
    && w.slo.Some? && w.slo.value.spec == spec && w.slo.value.meta.name == key.name
    && w.slo.value.meta.annotations == annotations
    && w.slo.value.meta.finalizers == finalizers && !w.slo.value.meta.deleting
  }

  /** The first pass adds the finalizer. */
  lemma FirstPass(
    cfg: Config, key: Key, s: System, events: seq<Event>, annotations: Labels, spec: SloSpec)
    returns (more: seq<Event>)
    requires NoIntrusion(events)
    requires var t := Run(cfg, key, s, events); t.slo.Stop? && Fresh(t.w, key, annotations, spec, [])
    ensures NoIntrusion(more)
    ensures var t, u := Run(cfg, key, s, events), Run(cfg, key, s, more);
      && u.slo.Stop? && Fresh(u.w, key, annotations, spec, [SLO_FINALIZER])
      && u.w.prom == t.w.prom && u.w.slis == t.w.slis && u.w.sources == t.w.sources
  {
    hide Run, AddsFinalizer, AdvanceResolving, AdvanceMakingProm, AdvanceMakingRule, AdvanceConcluding, NoIntrusion;
    more := Go(cfg, key, s, events, Start(SloCtl));
    more := Go(cfg, key, s, more, Call(SloCtl, Fine));
    more := Go(cfg, key, s, more, Call(SloCtl, Fine));
  }

  /** One fault-free call of the SLO controller. */
  lemma Called(cfg: Config, key: Key, s: System, events: seq<Event>, pc: Pc, w: World) returns (more: seq<Event>)
    requires NoIntrusion(events)
    requires var t := Run(cfg, key, s, events); Advance(cfg, t.slo, t.w, Fine) == (pc, w)
    ensures NoIntrusion(more) && Run(cfg, key, s, more).slo == pc && Run(cfg, key, s, more).w == w
  {
    hide Run, Advance, NoIntrusion;
    more := Go(cfg, key, s, events, Call(SloCtl, Fine));
  }

  lemma SourceFound(cfg: Config, w: World, slo: Slo)
    requires Makeable(cfg, w, slo.meta.annotations, slo.spec)
    ensures var source := w.sources[Get(slo.meta.annotations, "osko.dev/datasourceRef")];
      && Advance(cfg, GetSource(slo), w, Fine) == (GetSli(slo, source, slo.spec.indicatorRef.value), w)
      && Advance(cfg, GetSli(slo, source, slo.spec.indicatorRef.value), w, Fine)
         == (GetProm(slo, source, w.slis[slo.spec.indicatorRef.value]), w)
  {
    hide AdvanceFinalizing, AdvanceMakingProm, AdvanceMakingRule, AdvanceConcluding, SloConvergence.Compiles;
  }

  lemma PromMade(cfg: Config, w: World, slo: Slo, source: Datasource, sli: Sli)
    requires w.prom.None? && CreatePrometheusRule(cfg, slo, sli).Success?
    requires CreatePrometheusRule(cfg, slo, sli).value.meta.name != ""
    ensures var p := CreatePrometheusRule(cfg, slo, sli).value;
      && Advance(cfg, GetProm(slo, source, sli), w, Fine) == (MakeProm(slo, p), w)
      && var v := Advance(cfg, MakeProm(slo, p), w, Fine).1; v.prom.Some? && v.slo == w.slo
  {
    hide AdvanceFinalizing, AdvanceResolving, AdvanceMakingRule, AdvanceConcluding, CreatePrometheusRule;
  }

  /** The second pass, up to the creation of the PrometheusRule. */
  lemma SecondPass(
    cfg: Config, key: Key, s: System, events: seq<Event>, annotations: Labels, spec: SloSpec)
    returns (more: seq<Event>)
    requires NoIntrusion(events) && key.name != ""
    requires var t := Run(cfg, key, s, events);
      && t.slo.Stop? && Fresh(t.w, key, annotations, spec, [SLO_FINALIZER]) && t.w.prom.None?
      && Makeable(cfg, t.w, annotations, spec)
    ensures NoIntrusion(more)
    ensures var u := Run(cfg, key, s, more); Fresh(u.w, key, annotations, spec, [SLO_FINALIZER]) && u.w.prom.Some?
  {
    hide Run, Advance, NoIntrusion, CreatePrometheusRule, SloConvergence.Compiles;
    var w := Run(cfg, key, s, events).w;
    var slo, sli := w.slo.value, w.slis[spec.indicatorRef.value];
    var source := w.sources[Get(annotations, "osko.dev/datasourceRef")];
    CompilesToo(cfg, slo, sli);
    SourceFound(cfg, w, slo);
    PromMade(cfg, w, slo, source, sli);
    var p := CreatePrometheusRule(cfg, slo, sli).value;
    more := Go(cfg, key, s, events, Start(SloCtl));
    more := Examined(cfg, key, s, more);
    more := Called(cfg, key, s, more, GetSli(slo, source, slo.spec.indicatorRef.value), w);
    more := Called(cfg, key, s, more, GetProm(slo, source, sli), w);
    more := Called(cfg, key, s, more, MakeProm(slo, p), w);
    var (pc, v) := Advance(cfg, MakeProm(slo, p), w, Fine);
    more := Called(cfg, key, s, more, pc, v);
  }

  lemma Examined(cfg: Config, key: Key, s: System, events: seq<Event>) returns (more: seq<Event>)
    requires NoIntrusion(events)
    requires var t := Run(cfg, key, s, events);
      && t.slo.GetSlo? && t.w.slo.Some? && !t.w.slo.value.meta.deleting
      && SLO_FINALIZER in t.w.slo.value.meta.finalizers
    ensures NoIntrusion(more)
    ensures var t, u := Run(cfg, key, s, events), Run(cfg, key, s, more);
      u.slo == GetSource(t.w.slo.value) && u.w == t.w
  {
    hide Run, AdvanceResolving, AdvanceMakingProm, AdvanceMakingRule, AdvanceConcluding, NoIntrusion;
    more := Go(cfg, key, s, events, Call(SloCtl, Fine));
  }

  lemma CompilesToo(cfg: Config, slo: Slo, sli: Sli)
    requires SloConvergence.Compiles(cfg, NO_SLO.(spec := slo.spec), sli.spec) && slo.meta.name != ""
    ensures CreatePrometheusRule(cfg, slo, sli).Success? && CreatePrometheusRule(cfg, slo, sli).value.meta.name != ""
  {
    hide CreatePrometheusRule;
    SloConvergence.CompilesIff(cfg, slo, sli);
  }

  /** The SLO is deleted and released, and nobody collects its PrometheusRule. */
  lemma DeletedAndReleased(
    cfg: Config, key: Key, s: System, events: seq<Event>, annotations: Labels, spec: SloSpec)
    returns (more: seq<Event>)
    requires NoIntrusion(events)
    requires var t := Run(cfg, key, s, events);
      Fresh(t.w, key, annotations, spec, [SLO_FINALIZER]) && t.w.prom.Some?
    ensures NoIntrusion(more)
    ensures var u := Run(cfg, key, s, more); u.w.slo.None? && u.w.prom.Some? && u.slo.Stop?
  {
    hide Run, AddsFinalizer, AdvanceResolving, AdvanceMakingProm, AdvanceMakingRule, AdvanceConcluding, NoIntrusion;
    more := Go(cfg, key, s, events, Crash(SloCtl));
    more := Go(cfg, key, s, more, User(DeleteSlo));
    more := Go(cfg, key, s, more, Start(SloCtl));
    more := Go(cfg, key, s, more, Call(SloCtl, Fine));
    var slo := Run(cfg, key, s, more).w.slo.value;
    assert Remove([SLO_FINALIZER], SLO_FINALIZER) == [];
    NothingAdded(slo.meta, WithoutFinalizer(slo, SLO_FINALIZER).meta);
    more := Go(cfg, key, s, more, Call(SloCtl, Fine));
  }

  /**
   For every SLO that compiles there is a run, without a failing call, after which the name is re-created and a
   PrometheusRule of the earlier SLO is left, which is not the stored one's.
   */
  lemma RecreationFails(
    cfg: Config, key: Key, s: System, labels: Labels, annotations: Labels, spec: SloSpec)
    returns (events: seq<Event>)
    requires Initial(s) && key.name != "" && Makeable(cfg, s.w, annotations, spec)
    ensures NoIntrusion(events)
    ensures var u := Run(cfg, key, s, events);
      && u.w.slo.Some? && u.w.prom.Some?
      && OwnedBy(u.w.prom.value.meta, key, u.sloUids)
      && !OwnedBy(u.w.prom.value.meta, key, {u.w.slo.value.meta.uid})
  {
    hide Run, AddsFinalizer, Makeable, SloController.Advance, AllOf, NothingHeld, Ownership.Owned;
    var created := User(CreateSlo(labels, annotations, spec));
    assert Run(cfg, key, s, []) == s by { RunNone(cfg, key, s); }
    events := Go(cfg, key, s, [], created);
    assert Makeable(cfg, Run(cfg, key, s, events).w, annotations, spec) by {
      SameMakeable(cfg, s.w, Run(cfg, key, s, events).w, annotations, spec);
    }
    var first := events;
    events := FirstPass(cfg, key, s, events, annotations, spec);
    SameMakeable(cfg, Run(cfg, key, s, first).w, Run(cfg, key, s, events).w, annotations, spec);
    events := SecondPass(cfg, key, s, events, annotations, spec);
    events := DeletedAndReleased(cfg, key, s, events, annotations, spec);
    var t := events;
    events := Go(cfg, key, s, events, created);
    LeftBehind(cfg, key, s, t, events, labels, annotations, spec);
  }

  lemma RunNone(cfg: Config, key: Key, s: System)
    ensures Run(cfg, key, s, []) == s
  {
  }

  lemma SameMakeable(cfg: Config, w: World, v: World, annotations: Labels, spec: SloSpec)
    requires v.slis == w.slis && v.sources == w.sources
    ensures Makeable(cfg, w, annotations, spec) == Makeable(cfg, v, annotations, spec)
  {
    hide SloConvergence.Compiles;
  }

  lemma LeftBehind(
    cfg: Config, key: Key, s: System, before: seq<Event>, after: seq<Event>, labels: Labels, annotations: Labels,
    spec: SloSpec)
    requires Initial(s) && NoIntrusion(before) && NoIntrusion(after) && key.name != ""
    requires Run(cfg, key, s, before).w.slo.None? && Run(cfg, key, s, before).w.prom.Some?
    requires Run(cfg, key, s, after)
      == Step(cfg, key, Run(cfg, key, s, before), User(CreateSlo(labels, annotations, spec)))
    ensures var u := Run(cfg, key, s, after);
      && u.w.slo.Some? && u.w.prom.Some?
      && OwnedBy(u.w.prom.value.meta, key, u.sloUids)
      && !OwnedBy(u.w.prom.value.meta, key, {u.w.slo.value.meta.uid})
  {
    hide Run, OwnedBy, AllOf, NothingHeld, Initial;
    GeneratedObjectsOwned(cfg, key, s, before);
    GeneratedObjectsOwned(cfg, key, s, after);
    UidsPast(cfg, key, s, before);
    var t := Run(cfg, key, s, before);
    EarlierOwner(t.w.prom.value.meta, key, t.sloUids, t.w.clock + 1);
  }
}
