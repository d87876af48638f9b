/**
 Inline indicators: what the SLI stage leaves of the SLI of that name, and that an SLI keeps for good the
 owners it was created with.
 */
module InlineSlis {
  import opened Text
  import opened Selectors
  import opened Api
  import opened RuleCompiler
  import opened MimirTranslation
  import opened ObjectStore
  import opened Cluster
  import SloController
  import PromController
  import MimirController
  import opened JointRuns
  import opened Ownership
  import FinalizerEdits
  import Generations

  // ----- SLIs that were there before -----

  lemma SliOwnersKept(slot: Slot<SliSpec, ()>, sli: Sli, spec: SliSpec, clock: nat, f: Fault)
    requires Copy(sli, slot, clock)
    ensures var r := Attempt(slot, Replaced(slot, sli.(spec := spec), clock), f).slot;
      slot.Some? && r.Some? ==> r.value.meta.owners == slot.value.meta.owners && r.value.meta.uid == slot.value.meta.uid
  {
    hide AddsFinalizer;
  }

  lemma SloCallKeepsSliOwners(
    cfg: Config, pc: SloController.Pc, w: World, f: Fault, key: Key, uids: set<nat>, inline: set<nat>, name: string)
    requires WorldOwned(w, key, uids, inline) && SloHolds(pc, w, key, uids, inline)
    ensures var v := SloController.Advance(cfg, pc, w, f).1;
      name in w.slis && name in v.slis ==> v.slis[name].meta.owners == w.slis[name].meta.owners
  {
    hide OwnedBy, OurSlo, SlotsOwned, SlisOwned, HoldsOurs, Attempt, Replaced, Created, LeavesSlis, CreateSli,
      SloController.NewInlineSli, SloController.InlineName, SloController.AdvanceFinalizing,
      SloController.AdvanceMakingProm, SloController.AdvanceMakingRule, SloController.AdvanceConcluding;
    if name !in w.slis {
    } else if pc.CreateInline? {
      ExistingSliStays(w, SloController.NewInlineSli(pc.slo, pc.indicator), f, name);
    } else if pc.UpdateInline? {
      SliOwnersKept(Lookup(w.slis, pc.sli.meta.name), pc.sli, pc.indicator.spec, w.clock, f);
    } else {
      SloCallSlots(cfg, pc, w, f, key, uids);
      SlisSame(w, SloController.Advance(cfg, pc, w, f).1);
    }
  }

  lemma SlisSame(w: World, v: World)
    requires LeavesSlis(w, v)
    ensures v.slis == w.slis
  {
  }

  lemma ExistingSliStays(w: World, o: Sli, f: Fault, name: string)
    requires name in w.slis
    ensures var v := CreateSli(w, o, f).0; name in v.slis && v.slis[name] == w.slis[name]
  {
  }

  /**
   In every reachable state no controller's call changes the owners of an SLI that already exists.  So an
   existing SLI that an SLO names inline has its spec overwritten but never becomes the SLO's.
   */
  lemma ExistingSliOwnersKept(
    cfg: Config, key: Key, s: System, events: seq<Event>, c: Controller, f: Fault, name: string)
    requires Initial(s) && forall i :: 0 <= i < |events| ==> !Intrusion(events[i])
    ensures var t := Run(cfg, key, s, events); var u := Step(cfg, key, t, Call(c, f));
      name in t.w.slis && name in u.w.slis ==> u.w.slis[name].meta.owners == t.w.slis[name].meta.owners
  {
    hide Run, Initial, SloController.Advance, PromController.Advance, MimirController.Advance, WorldOwned, SloHolds,
      PromHolds, RuleHolds;
    OwnershipAlways(cfg, key, s, events);
    var t := Run(cfg, key, s, events);
    match c
    case SloCtl => SloCallKeepsSliOwners(cfg, t.slo, t.w, f, key, t.sloUids, t.inlineUids, name);
    case PromCtl => OtherCallsLeaveSlis(cfg, t, key, f);
    case RuleCtl => OtherCallsLeaveSlis(cfg, t, key, f);
  }

  lemma OtherCallsLeaveSlis(cfg: Config, s: System, key: Key, f: Fault)
    requires Owned(s, key)
    ensures PromController.Advance(cfg, s.prom, s.w, f).1.slis == s.w.slis
    ensures MimirController.Advance(cfg, s.rule, s.w, f).1.slis == s.w.slis
  {
    hide SlotsOwned, SlisOwned, PromHolds, RuleHolds, SloHolds, PromController.Advance, MimirController.Advance;
    PromCallOwned(cfg, s.prom, s.w, f, key, s.sloUids);
    RuleCallOwned(cfg, s.rule, s.w, f, key, s.sloUids);
  }

  // ----- The SLI stage -----

  predicate AtInline(pc: SloController.Pc)
  {
    pc.GetInline? || pc.CreateInline? || pc.UpdateInline?
  }

  lemma InlineCall(cfg: Config, pc: SloController.Pc, w: World, f: Fault, key: Key, uids: set<nat>, inline: set<nat>)
    requires AtInline(pc) && WorldOwned(w, key, uids, inline) && SloHolds(pc, w, key, uids, inline)
    ensures var (pc', v) := SloController.AdvanceResolving(cfg, pc, w, f);
      var name := SloController.InlineName(pc.slo, pc.indicator);
      name in v.slis ==>
        && v.slis[name].meta.owners
           == (if name in w.slis then w.slis[name].meta.owners else [SloController.OwnerOf(pc.slo)])
        && (pc'.GetProm? ==> v.slis[name].spec == pc.indicator.spec)
  {
    hide OwnedBy, OurSlo, SlotsOwned, HoldsOurs, SloController.InlineName, AddsFinalizer;
    var owner := SloController.OwnerOf(pc.slo);
    assert SloController.WithOwner([], owner) == [owner];
    if pc.UpdateInline? {
      SliOwnersKept(Lookup(w.slis, pc.sli.meta.name), pc.sli, pc.indicator.spec, w.clock, f);
    }
  }

  /**
   In every reachable state and under every fault: after a call of the SLI stage the SLI of the inline name, if
   stored, belongs to the SLO stored at that moment when the call created it, and has the owners it had when it
   was there before; and a stage that goes on to the rules leaves it the indicator's spec.
   */
  lemma InlineStageOwners(cfg: Config, key: Key, s: System, events: seq<Event>, f: Fault)
    requires Initial(s) && forall i :: 0 <= i < |events| ==> !Intrusion(events[i])
    requires AtInline(Run(cfg, key, s, events).slo)
    ensures var t := Run(cfg, key, s, events); var u := Step(cfg, key, t, Call(SloCtl, f));
      var name := SloController.InlineName(t.slo.slo, t.slo.indicator);
      && t.w.slo.Some? && t.slo.slo.meta.uid == t.w.slo.value.meta.uid
      && (name in u.w.slis ==>
            && (name !in t.w.slis ==> OwnedBy(u.w.slis[name].meta, key, {t.w.slo.value.meta.uid}))
            && (name in t.w.slis ==> u.w.slis[name].meta.owners == t.w.slis[name].meta.owners)
            && (u.slo.GetProm? ==> u.w.slis[name].spec == t.slo.indicator.spec))
  {
    hide Run, Initial, SlotsOwned, SlisOwned, PromHolds, RuleHolds, HoldsInline, SloController.InlineName,
      SloController.AdvanceResolving;
    OwnershipAlways(cfg, key, s, events);
    Generations.SloCopyIsStored(cfg, key, s, events);
    var t := Run(cfg, key, s, events);
    InlineCall(cfg, t.slo, t.w, f, key, t.sloUids, t.inlineUids);
  }

  // ----- Whole runs -----

  /** An SLI stored after a step was there before with the same owners, or has a new number. */
  predicate KeptOrNew(w: World, v: World, name: string)
  {
    name in v.slis ==>
      || (name in w.slis && v.slis[name].meta.uid == w.slis[name].meta.uid
          && v.slis[name].meta.owners == w.slis[name].meta.owners)
      || v.slis[name].meta.uid > w.clock
  }

  lemma SlotKeptOrNew(slot: Slot<SliSpec, ()>, o: Sli, clock: nat, f: Fault)
    ensures var v := Attempt(slot, Created(slot, o, clock), f).slot;
      v == slot || (v.Some? && v.value.meta.uid == clock + 1)
  {
  }

  lemma SloCallKeptOrNew(
    cfg: Config, pc: SloController.Pc, w: World, f: Fault, key: Key, uids: set<nat>, inline: set<nat>, name: string)
    requires WorldOwned(w, key, uids, inline) && SloHolds(pc, w, key, uids, inline)
    ensures KeptOrNew(w, SloController.Advance(cfg, pc, w, f).1, name)
  {
    hide OwnedBy, OurSlo, SlotsOwned, SlisOwned, HoldsOurs, Attempt, Replaced, Created, LeavesSlis,
      SloController.NewInlineSli, SloController.InlineName, SloController.AdvanceFinalizing,
      SloController.AdvanceMakingProm, SloController.AdvanceMakingRule, SloController.AdvanceConcluding;
    if pc.CreateInline? {
      var o := SloController.NewInlineSli(pc.slo, pc.indicator);
      SlotKeptOrNew(Lookup(w.slis, o.meta.name), o, w.clock, f);
    } else if pc.UpdateInline? {
      SliOwnersKept(Lookup(w.slis, pc.sli.meta.name), pc.sli, pc.indicator.spec, w.clock, f);
      NoneFromNone(Lookup(w.slis, pc.sli.meta.name), pc.sli.(spec := pc.indicator.spec), w.clock, f);
    } else {
      SloCallSlots(cfg, pc, w, f, key, uids);
      SlisSame(w, SloController.Advance(cfg, pc, w, f).1);
    }
  }

  lemma NoneFromNone(slot: Slot<SliSpec, ()>, o: Sli, clock: nat, f: Fault)
    ensures Attempt(slot, Replaced(slot, o, clock), f).slot.Some? ==> slot.Some?
  {
    hide AddsFinalizer;
  }

  lemma StepKeptOrNew(cfg: Config, key: Key, s: System, e: Event, name: string)
    requires Owned(s, key)
    ensures KeptOrNew(s.w, Step(cfg, key, s, e).w, name)
  {
    hide SloController.Advance, PromController.Advance, MimirController.Advance, WorldOwned, SloHolds, PromHolds,
      RuleHolds, Replaced, DeletionRequested, Created, Owned;
    match e
    case Call(SloCtl, f) => SloCallStep(cfg, key, s, f, name);
    case Call(PromCtl, f) => OtherCallsLeaveSlis(cfg, s, key, f);
    case Call(RuleCtl, f) => OtherCallsLeaveSlis(cfg, s, key, f);
    case _ =>
  }

  lemma SloCallStep(cfg: Config, key: Key, s: System, f: Fault, name: string)
    requires Owned(s, key)
    ensures KeptOrNew(s.w, Step(cfg, key, s, Call(SloCtl, f)).w, name)
  {
    hide SloController.Advance, WorldOwned, SloHolds, PromHolds, RuleHolds, KeptOrNew;
    SloCallKeptOrNew(cfg, s.slo, s.w, f, key, s.sloUids, s.inlineUids, name);
  }

  lemma {:induction false} ClockGrows(cfg: Config, key: Key, s: System, events: seq<Event>, i: nat)
    requires Initial(s) && i <= |events|
    ensures Run(cfg, key, s, events[..i]).w.clock <= Run(cfg, key, s, events).w.clock
    decreases |events|
  {
    hide Step, FinalizerEdits.Tracked;
    if i < |events| {
      var before := events[..|events| - 1];
      assert before[..i] == events[..i];
      ClockGrows(cfg, key, s, before, i);
      FinalizerEdits.RunTracked(cfg, key, s, before);
      FinalizerEdits.StepTracked(cfg, key, Run(cfg, key, s, before), events[|events| - 1]);
    } else {
      assert events[..i] == events;
    }
  }

  lemma StoredUid(w: World, key: Key, uids: set<nat>, inline: set<nat>, name: string)
    requires WorldOwned(w, key, uids, inline) && name in w.slis
    ensures w.slis[name].meta.uid <= w.clock
  {
    hide OwnedBy, SlotsOwned;
  }

  /**
   An SLI keeps the owners it was created with: whatever happens in between, the SLI stored under a name at two
   points of a run has the same owners at both if it is the same SLI, by uid.
   */
  lemma {:induction false} SliOwnersForever(
    cfg: Config, key: Key, s: System, events: seq<Event>, i: nat, name: string)
    requires Initial(s) && i <= |events| && forall k :: 0 <= k < |events| ==> !Intrusion(events[k])
    ensures var a, b := Run(cfg, key, s, events[..i]).w, Run(cfg, key, s, events).w;
      name in a.slis && name in b.slis && a.slis[name].meta.uid == b.slis[name].meta.uid ==>
        a.slis[name].meta.owners == b.slis[name].meta.owners
    decreases |events|
  {
    hide Step, Owned;
    if i < |events| {
      var n := |events| - 1;
      var before := events[..n];
      assert before[..i] == events[..i];
      SliOwnersForever(cfg, key, s, before, i, name);
      OwnershipAlways(cfg, key, s, before);
      OwnershipAlways(cfg, key, s, events[..i]);
      StepKeptOrNew(cfg, key, Run(cfg, key, s, before), events[n], name);
      ClockGrows(cfg, key, s, before, i);
      var t := Run(cfg, key, s, events[..i]);
      if name in t.w.slis {
        OwnedUid(t, key, name);
      }
    } else {
      assert events[..i] == events;
    }
  }

  lemma OwnedUid(t: System, key: Key, name: string)
    requires Owned(t, key) && name in t.w.slis
    ensures t.w.slis[name].meta.uid <= t.w.clock
  {
    hide WorldOwned, SloHolds, PromHolds, RuleHolds;
    StoredUid(t.w, key, t.sloUids, t.inlineUids, name);
  }
}
