/**
 The one child that may stay without an owner: the AlertManagerConfig is created without one, and only the
 next call adds it.  It is owned exactly when that call reached the store.
 */
module AlertingOwnership {
  import opened Text
  import opened Selectors
  import opened Api
  import opened RuleCompiler
  import opened MimirTranslation
  import opened ObjectStore
  import opened Cluster
  import SloController
  import PromController
  import MimirController
  import opened JointRuns
  import opened Ownership
  import Generations
  import FinalizerEdits

  // ----- One pass -----

  /** The alerting object once created, and once its ownership call is through. */
  lemma CreatedUnowned(w: World, slo: Slo, f: Fault)
    requires w.alerting.None?
    ensures var (v, reply) := CreateAlerting(w, SloController.NewAlerting(slo), f);
      && v == w.(alerting := v.alerting, clock := v.clock) && (v.alerting.Some? <==> f != Dropped)
      && (reply.Done? <==> f == Fine) && (reply.Done? ==> v.alerting == Some(reply.obj))
      && (v.alerting.Some? ==> Unowned(v.alerting.value.meta) && v.alerting.value.meta.uid == w.clock + 1 == v.clock)
  {
    assert |slo.meta.name + "-alerting"| > 0;
  }

  predicate Unowned(meta: Meta)
  {
    meta.owners == [] && meta.finalizers == [] && !meta.deleting
  }

  lemma OwnershipPut(w: World, a: AlertManagerConfig, slo: Slo, f: Fault)
    requires w.alerting == Some(a) && Unowned(a.meta)
    ensures var (v, reply) := PutAlerting(w, SloController.Owned(a, slo), f);
      && v.alerting.Some? && v.alerting.value.meta.uid == a.meta.uid && v.alerting.value.meta.finalizers == []
      && !v.alerting.value.meta.deleting
      && v.alerting.value.meta.owners == (if f == Dropped then [] else [SloController.OwnerOf(slo)])
      && (reply.Done? <==> f == Fine)
  {
    hide AddsFinalizer;
    Generations.NothingAdded(a.meta, SloController.Owned(a, slo).meta);
    assert SloController.WithOwner([], SloController.OwnerOf(slo)) == [SloController.OwnerOf(slo)];
  }

  /** The last call of a pass leaves the alerting object alone. */
  lemma ConcludeLeavesAlerting(cfg: Config, slo: Slo, w: World, env: Environment, t: nat)
    requires forall k, v :: env.disturb(k, v) == v
    ensures SloController.Pass(cfg, SloController.Conclude(slo), w, env, t).world.alerting == w.alerting
  {
    hide Attempt, StatusReplaced, SloController.WithReadyCondition;
    PassStep(cfg, SloController.Conclude(slo), w, env, t);
  }

  lemma PassStep(cfg: Config, pc: SloController.Pc, w: World, env: Environment, t: nat)
    requires !pc.Stop? && forall k, v :: env.disturb(k, v) == v
    ensures var (pc', v) := SloController.Advance(cfg, pc, w, env.fault(t));
      SloController.Pass(cfg, pc, w, env, t) == SloController.Pass(cfg, pc', v, env, t + 1)
  {
    hide SloController.Advance;
    assert env.disturb(t, w) == w;
  }

  /**
   The rest of a pass that makes an AlertManagerConfig: it is stored unless the creation was dropped, and then
   it is the SLO's exactly when the creation answered and the ownership call was not dropped.
   */
  lemma PassOwnsAlertingIff(cfg: Config, pc: SloController.Pc, w: World, env: Environment, t: nat)
    requires pc.MakeAlerting? && w.alerting.None? && forall k, v :: env.disturb(k, v) == v
    ensures var v := SloController.Pass(cfg, pc, w, env, t).world;
      && (v.alerting.Some? <==> env.fault(t) != Dropped)
      && (v.alerting.Some? ==>
            var owners := v.alerting.value.meta.owners;
            && (owners == [SloController.OwnerOf(pc.slo)] <==> env.fault(t) == Fine && env.fault(t + 1) != Dropped)
            && (owners == [] <==> !(env.fault(t) == Fine && env.fault(t + 1) != Dropped)))
  {
    hide SloController.Pass, CreateAlerting, PutAlerting, SloController.NewAlerting, SloController.Owned;
    CreatedUnowned(w, pc.slo, env.fault(t));
    PassStep(cfg, pc, w, env, t);
    var (pc1, w1) := SloController.Advance(cfg, pc, w, env.fault(t));
    if pc1.Stop? {
      Stopped(cfg, pc1, w1, env, t + 1);
    } else {
      OwnershipPut(w1, pc1.alerting, pc.slo, env.fault(t + 1));
      PassStep(cfg, pc1, w1, env, t + 1);
      var (pc2, w2) := SloController.Advance(cfg, pc1, w1, env.fault(t + 1));
      if pc2.Stop? {
        Stopped(cfg, pc2, w2, env, t + 2);
      } else {
        ConcludeLeavesAlerting(cfg, pc.slo, w2, env, t + 2);
      }
    }
  }

  lemma Stopped(cfg: Config, pc: SloController.Pc, w: World, env: Environment, t: nat)
    requires pc.Stop?
    ensures SloController.Pass(cfg, pc, w, env, t).world == w
  {
  }

  // ----- What leaves the object alone -----

  lemma CreationRefused(w: World, o: AlertManagerConfig, f: Fault)
    requires w.alerting.Some?
    ensures var (v, reply) := CreateAlerting(w, o, f); v.alerting == w.alerting && !reply.Done?
  {
  }

  lemma OtherCallsLeaveAlerting(cfg: Config, pc: SloController.Pc, w: World, f: Fault)
    requires !pc.OwnAlerting? && !pc.MakeAlerting?
    ensures var (pc', v) := SloController.Advance(cfg, pc, w, f); v.alerting == w.alerting && !pc'.OwnAlerting?
  {
    hide Attempt, Replaced, Created, StatusReplaced, CreateAlerting, CreatePrometheusRule, NewMimirRule,
      SloController.NewInlineSli, SloController.NewAlerting, SloController.WithReadyCondition, WithFinalizer,
      WithoutFinalizer, SloController.Owned, SloController.InlineName;
  }

  lemma SloCallLeavesAlerting(cfg: Config, pc: SloController.Pc, w: World, f: Fault)
    requires w.alerting.Some? && !pc.OwnAlerting?
    ensures var (pc', v) := SloController.Advance(cfg, pc, w, f); v.alerting == w.alerting && !pc'.OwnAlerting?
  {
    hide CreateAlerting, SloController.NewAlerting;
    if pc.MakeAlerting? {
      CreationRefused(w, SloController.NewAlerting(pc.slo), f);
    } else {
      OtherCallsLeaveAlerting(cfg, pc, w, f);
      hide SloController.Advance;
    }
  }

  /** If that next call does not happen, no later pass of any controller adds the owner. */
  lemma {:induction false} UnownedAlertingStays(cfg: Config, key: Key, s: System, events: seq<Event>)
    requires s.w.alerting.Some? && !s.slo.OwnAlerting?
    requires forall i :: 0 <= i < |events| ==> !(events[i].User? && events[i].a.DeleteAlerting?)
    ensures var t := Run(cfg, key, s, events); t.w.alerting == s.w.alerting && !t.slo.OwnAlerting?
  {
    hide Step;
    if events != [] {
      UnownedAlertingStays(cfg, key, s, events[..|events| - 1]);
      StepLeavesAlerting(cfg, key, Run(cfg, key, s, events[..|events| - 1]), events[|events| - 1]);
    }
  }

  lemma StepLeavesAlerting(cfg: Config, key: Key, s: System, e: Event)
    requires s.w.alerting.Some? && !s.slo.OwnAlerting? && !(e.User? && e.a.DeleteAlerting?)
    ensures var t := Step(cfg, key, s, e); t.w.alerting == s.w.alerting && !t.slo.OwnAlerting?
  {
    hide SloController.Advance, PromController.Advance, MimirController.Advance, Act;
    match e
    case Call(SloCtl, f) => SloCallLeavesAlerting(cfg, s.slo, s.w, f);
    case Call(PromCtl, f) => PromCallLeavesAlerting(cfg, s.prom, s.w, f);
    case Call(RuleCtl, f) => RuleCallLeavesAlerting(cfg, s.rule, s.w, f);
    case User(a) => UserLeavesAlerting(key, s.w, a);
    case _ =>
  }

  lemma PromCallLeavesAlerting(cfg: Config, pc: PromController.Pc, w: World, f: Fault)
    ensures PromController.Advance(cfg, pc, w, f).1.alerting == w.alerting
  {
    hide Attempt, Replaced, StatusReplaced, PromController.ExamineProm, PromController.ChooseSli,
      PromController.Derive;
  }

  lemma RuleCallLeavesAlerting(cfg: Config, pc: MimirController.Pc, w: World, f: Fault)
    ensures MimirController.Advance(cfg, pc, w, f).1.alerting == w.alerting
  {
    hide Attempt, Replaced, StatusReplaced, MimirController.Examine, MimirController.AfterOwners,
      MimirController.AfterPushing, MimirController.AfterRuleGuard, MimirController.AfterGuards, WithFinalizer,
      WithoutFinalizer;
  }

  lemma UserLeavesAlerting(key: Key, w: World, a: Action)
    requires !a.DeleteAlerting?
    ensures Act(key, w, a).alerting == w.alerting
  {
    hide Attempt, Replaced, DeletionRequested, Created;
  }

  // ----- Joint runs -----

  /** An AlertManagerConfig and an SLO, by uid. */
  datatype Adoption = Adoption(alerting: nat, slo: nat)

  /** The object that this step's ownership call reaches, if it is one, with the SLO stored at that moment. */
  function Adopts(s: System, e: Event): set<Adoption>
  {
    if e.Call? && e.c == SloCtl && e.f != Dropped && s.slo.OwnAlerting? && s.w.alerting.Some? && s.w.slo.Some?
    then {Adoption(s.w.alerting.value.meta.uid, s.w.slo.value.meta.uid)}
    else {}
  }

  /** The adoptions of a run. */
  function AdoptedIn(cfg: Config, key: Key, s: System, events: seq<Event>): set<Adoption>
  {
    if events == [] then {}
    else
      var before := events[..|events| - 1];
      AdoptedIn(cfg, key, s, before) + Adopts(Run(cfg, key, s, before), events[|events| - 1])
  }

  predicate Adopted(uid: nat, adopted: set<Adoption>)
  {
    exists a | a in adopted :: a.alerting == uid
  }

  /** The stored object, given the adoptions so far. */
  predicate StoredAs(w: World, key: Key, adopted: set<Adoption>)
  {
    w.alerting.Some? ==>
      var meta := w.alerting.value.meta;
      && meta.finalizers == [] && !meta.deleting && meta.uid <= w.clock
      && (forall a | a in adopted && a.alerting == meta.uid :: OwnedBy(meta, key, {a.slo}))
      && (meta.owners == [] || Adopted(meta.uid, adopted))
  }

  ghost predicate Accounted(s: System, key: Key, adopted: set<Adoption>)
  {
    && (forall a | a in adopted :: a.alerting <= s.w.clock)
    && StoredAs(s.w, key, adopted)
    && (s.slo.OwnAlerting? && s.w.alerting.Some? ==>
          s.w.alerting == Some(s.slo.alerting) && !Adopted(s.slo.alerting.meta.uid, adopted))
  }

  /** Nothing happened to the object. */
  lemma StillAccounted(s: System, t: System, key: Key, adopted: set<Adoption>)
    requires Accounted(s, key, adopted) && t.w.alerting == s.w.alerting && s.w.clock <= t.w.clock
    requires t.slo == s.slo || !t.slo.OwnAlerting?
    ensures Accounted(t, key, adopted)
  {
    hide OwnedBy, Adopted;
  }

  /** A new object has a number of its own. */
  lemma MakingAccounted(cfg: Config, key: Key, s: System, f: Fault, adopted: set<Adoption>)
    requires Accounted(s, key, adopted) && s.slo.MakeAlerting?
    ensures Accounted(Step(cfg, key, s, Call(SloCtl, f)), key, adopted)
  {
    hide CreateAlerting, SloController.NewAlerting, OwnedBy, SloController.AdvanceFinalizing,
      SloController.AdvanceResolving, SloController.AdvanceMakingProm, SloController.AdvanceMakingRule;
    CreationTicks(s.w, SloController.NewAlerting(s.slo.slo), f);
    if s.w.alerting.None? {
      CreatedUnowned(s.w, s.slo.slo, f);
      assert !Adopted(s.w.clock + 1, adopted);
    } else {
      CreationRefused(s.w, SloController.NewAlerting(s.slo.slo), f);
    }
  }

  lemma CreationTicks(w: World, o: AlertManagerConfig, f: Fault)
    ensures w.clock <= CreateAlerting(w, o, f).0.clock
  {
    hide Attempt, Created;
  }

  /** The ownership call, made for the SLO that is stored. */
  lemma OwningAccounted(cfg: Config, key: Key, s: System, f: Fault, adopted: set<Adoption>)
    requires Accounted(s, key, adopted) && s.slo.OwnAlerting? && s.slo.slo.meta.name == key.name
    requires s.w.slo.Some? && s.w.slo.value.meta.uid == s.slo.slo.meta.uid
    ensures Accounted(Step(cfg, key, s, Call(SloCtl, f)), key, adopted + Adopts(s, Call(SloCtl, f)))
  {
    hide PutAlerting, SloController.Owned, SloController.AdvanceFinalizing, SloController.AdvanceResolving,
      SloController.AdvanceMakingProm, SloController.AdvanceMakingRule;
    OwnershipTicks(s.w, SloController.Owned(s.slo.alerting, s.slo.slo), f);
    if s.w.alerting.Some? {
      OwnershipPut(s.w, s.slo.alerting, s.slo.slo, f);
      var uid := s.slo.alerting.meta.uid;
      var more := adopted + Adopts(s, Call(SloCtl, f));
      assert forall a | a in adopted :: a.alerting != uid;
      if f != Dropped {
        assert Adoption(uid, s.slo.slo.meta.uid) in more && Adopted(uid, more);
      }
    }
  }

  lemma OwnershipTicks(w: World, o: AlertManagerConfig, f: Fault)
    ensures var v := PutAlerting(w, o, f).0; w.clock <= v.clock && (w.alerting.None? ==> v.alerting.None?)
  {
    hide AddsFinalizer;
  }

  lemma StepAccounted(cfg: Config, key: Key, s: System, e: Event, adopted: set<Adoption>)
    requires Accounted(s, key, adopted) && Owned(s, key) && FinalizerEdits.Tracked(s)
    requires Generations.HoldsStored(s.slo, s.w)
    ensures Accounted(Step(cfg, key, s, e), key, adopted + Adopts(s, e))
  {
    hide SloController.Advance, PromController.Advance, MimirController.Advance, Act, Accounted, WorldOwned,
      HoldsInline, PromHolds, RuleHolds, FinalizerEdits.Tracked;
    var t := Step(cfg, key, s, e);
    if e.Call? && e.c == SloCtl && s.slo.OwnAlerting? {
      OwningAccounted(cfg, key, s, e.f, adopted);
    } else {
      assert adopted + Adopts(s, e) == adopted;
      FinalizerEdits.StepTracked(cfg, key, s, e);
      match e
      case Call(SloCtl, f) =>
        if s.slo.MakeAlerting? {
          MakingAccounted(cfg, key, s, f, adopted);
        } else {
          OtherCallsLeaveAlerting(cfg, s.slo, s.w, f);
          StillAccounted(s, t, key, adopted);
        }
      case Call(PromCtl, f) => PromCallLeavesAlerting(cfg, s.prom, s.w, f); StillAccounted(s, t, key, adopted);
      case Call(RuleCtl, f) => RuleCallLeavesAlerting(cfg, s.rule, s.w, f); StillAccounted(s, t, key, adopted);
      case User(a) =>
        if a.DeleteAlerting? {
          DeletionAccounted(cfg, key, s, adopted);
        } else {
          UserLeavesAlerting(key, s.w, a);
          StillAccounted(s, t, key, adopted);
        }
      case _ => StillAccounted(s, t, key, adopted);
    }
  }

  /** Without finalizers the object goes at once. */
  lemma DeletionAccounted(cfg: Config, key: Key, s: System, adopted: set<Adoption>)
    requires Accounted(s, key, adopted)
    ensures Accounted(Step(cfg, key, s, User(DeleteAlerting)), key, adopted)
  {
  }

  lemma {:induction false} RunAccounted(cfg: Config, key: Key, s: System, events: seq<Event>)
    requires Initial(s) && forall i :: 0 <= i < |events| ==> !Intrusion(events[i])
    ensures Accounted(Run(cfg, key, s, events), key, AdoptedIn(cfg, key, s, events))
  {
    hide Step, Owned, FinalizerEdits.Tracked;
    if events != [] {
      var before := events[..|events| - 1];
      RunAccounted(cfg, key, s, before);
      OwnershipAlways(cfg, key, s, before);
      FinalizerEdits.RunTracked(cfg, key, s, before);
      Generations.SloCopyIsStored(cfg, key, s, before);
      StepAccounted(cfg, key, Run(cfg, key, s, before), events[|events| - 1], AdoptedIn(cfg, key, s, before));
    }
  }

  /**
   In every reachable state, with failures, crashes and deletions anywhere: a stored AlertManagerConfig is SLO
   u's, in particular the stored SLO's, if and only if its ownership call reached the store while u was the
   stored SLO; and it is nobody's if and only if no ownership call reached it.
   */
  lemma AlertingOwnedIff(cfg: Config, key: Key, s: System, events: seq<Event>, u: nat)
    requires Initial(s) && forall i :: 0 <= i < |events| ==> !Intrusion(events[i])
    ensures var t, adopted := Run(cfg, key, s, events), AdoptedIn(cfg, key, s, events);
      t.w.alerting.Some? ==>
        var meta := t.w.alerting.value.meta;
        && (OwnedBy(meta, key, {u}) <==> Adoption(meta.uid, u) in adopted)
        && (meta.owners == [] <==> !Adopted(meta.uid, adopted))
  {
    hide Run, Initial, AdoptedIn;
    RunAccounted(cfg, key, s, events);
  }
}
