/**
 Ownership in joint runs: with failures and crashes anywhere, every generated PrometheusRule and
 MimirRule and every SLI the SLO controller created refers to the SLO as its owner, while datasources
 and merely referenced SLIs are never written.
 */
module Ownership {
  import opened Text
  import opened Selectors
  import opened Api
  import opened RuleCompiler
  import opened MimirTranslation
  import opened ObjectStore
  import opened Cluster
  import SloController
  import PromController
  import MimirController
  import opened JointRuns

  /** One owner reference, to an SLO of this name under a uid such an SLO has had. */
  predicate OwnedBy(meta: Meta, key: Key, uids: set<nat>)
  {
    |meta.owners| == 1 && meta.owners[0].kind == "SLO" && meta.owners[0].name == key.name && meta.owners[0].uid in uids
  }

  /** An SLO object or copy of this name. */
  predicate OurSlo(slo: Slo, key: Key, uids: set<nat>)
  {
    slo.meta.name == key.name && slo.meta.uid in uids
  }

  ghost predicate SlisOwned(w: World, key: Key, uids: set<nat>, inline: set<nat>)
  {
    && (forall n | n in w.slis ::
          && w.slis[n].meta.name == n && 0 < w.slis[n].meta.version <= w.clock && w.slis[n].meta.uid <= w.clock
          && (w.slis[n].meta.uid in inline ==> OwnedBy(w.slis[n].meta, key, uids)))
    && forall u | u in inline :: u <= w.clock
  }

  predicate SlotsOwned(w: World, key: Key, uids: set<nat>)
  {
    && (w.slo.Some? ==> OurSlo(w.slo.value, key, uids))
    && (w.prom.Some? ==> OwnedBy(w.prom.value.meta, key, uids))
    && (w.rule.Some? ==> OwnedBy(w.rule.value.meta, key, uids))
  }

  ghost predicate WorldOwned(w: World, key: Key, uids: set<nat>, inline: set<nat>)
  {
    SlotsOwned(w, key, uids) && SlisOwned(w, key, uids, inline)
  }

  // ----- What each controller holds -----

  predicate InlineOf(slo: Slo, indicator: Indicator)
  {
    slo.spec.indicatorRef.None? && slo.spec.indicator == Some(indicator)
  }

  /** Whether the SLO controller, being here, holds a copy of the SLO. */
  predicate HasSlo(pc: SloController.Pc)
  {
    !pc.GetSlo? && !pc.ReadyRule? && !pc.Stop?
  }

  predicate HoldsOurs(pc: SloController.Pc, key: Key, uids: set<nat>)
  {
    && (HasSlo(pc) ==> OurSlo(pc.slo, key, uids))
    && (pc.MakeProm? || pc.OwnProm? ==> OwnedBy(pc.prom.meta, key, uids))
    && (pc.MakeRule? || pc.OwnRule? ==> OwnedBy(pc.rule.meta, key, uids))
  }

  ghost predicate HoldsInline(pc: SloController.Pc, w: World, key: Key, uids: set<nat>, inline: set<nat>)
  {
    && (pc.GetInline? || pc.CreateInline? || pc.UpdateInline? ==> InlineOf(pc.slo, pc.indicator))
    && (pc.UpdateInline? ==>
          && pc.sli.meta.name == SloController.InlineName(pc.slo, pc.indicator)
          && Copy(pc.sli, Lookup(w.slis, pc.sli.meta.name), w.clock)
          && (pc.sli.meta.uid in inline ==> OwnedBy(pc.sli.meta, key, uids)))
  }

  ghost predicate SloHolds(pc: SloController.Pc, w: World, key: Key, uids: set<nat>, inline: set<nat>)
  {
    HoldsOurs(pc, key, uids) && HoldsInline(pc, w, key, uids, inline)
  }

  predicate PromHolds(pc: PromController.Pc, key: Key, uids: set<nat>)
  {
    && (pc.GetOwner? ==> pc.name == key.name)
    && (pc.GetSli? || pc.SliMissing? || pc.NoIndicator? || pc.TouchPut? ==> OurSlo(pc.slo, key, uids))
    && (pc.OverwriteGet? || pc.OverwritePut? ==> OwnedBy(pc.derived.meta, key, uids))
  }

  /** Whether the MimirRule controller, being here, holds a copy of the SLO. */
  predicate RuleHasSlo(pc: MimirController.Pc)
  {
    pc.Pushing? || pc.GuardRuleGet? || pc.GuardRulePut? || pc.GuardPromGet? || pc.GuardPromPut?
  }

  predicate RuleHolds(pc: MimirController.Pc, key: Key, uids: set<nat>)
  {
    && (RuleHasSlo(pc) ==> OurSlo(pc.slo, key, uids))
    && (pc.ReleaseRulePut? || pc.GuardRulePut? ==> OwnedBy(pc.rule.meta, key, uids))
    && (pc.ReleasePromPut? || pc.GuardPromPut? ==> OwnedBy(pc.prom.meta, key, uids))
    && (pc.GetOwner? ==> |pc.refs| == 1 && pc.refs[0].name == key.name)
    && (pc.OverwriteGet? || pc.OverwritePut? ==> OwnedBy(pc.derived.meta, key, uids))
  }

  ghost predicate Owned(s: System, key: Key)
  {
    && WorldOwned(s.w, key, s.sloUids, s.inlineUids)
    && SloHolds(s.slo, s.w, key, s.sloUids, s.inlineUids)
    && PromHolds(s.prom, key, s.sloUids)
    && RuleHolds(s.rule, key, s.sloUids)
  }

  // ----- Slots -----

  lemma ReplaceOwned<S, T>(slot: Slot<S, T>, o: Object<S, T>, clock: nat, f: Fault, key: Key, uids: set<nat>)
    requires slot.Some? ==> OwnedBy(slot.value.meta, key, uids)
    requires OwnedBy(o.meta, key, uids)
    ensures var r := Attempt(slot, Replaced(slot, o, clock), f);
      && (r.slot.Some? ==> OwnedBy(r.slot.value.meta, key, uids))
      && (r.reply.Done? ==> OwnedBy(r.reply.obj.meta, key, uids))
  {
    hide AddsFinalizer;
  }

  lemma CreateOwned<S, T>(slot: Slot<S, T>, o: Object<S, T>, clock: nat, f: Fault, key: Key, uids: set<nat>)
    requires slot.Some? ==> OwnedBy(slot.value.meta, key, uids)
    requires OwnedBy(o.meta, key, uids)
    ensures var r := Attempt(slot, Created(slot, o, clock), f);
      && (r.slot.Some? ==> OwnedBy(r.slot.value.meta, key, uids))
      && (r.reply.Done? ==> OwnedBy(r.reply.obj.meta, key, uids))
  {
  }

  lemma StatusOwned<S, T>(slot: Slot<S, T>, o: Object<S, T>, clock: nat, f: Fault, key: Key, uids: set<nat>)
    requires slot.Some? ==> OwnedBy(slot.value.meta, key, uids)
    ensures var r := Attempt(slot, StatusReplaced(slot, o, clock), f);
      && (r.slot.Some? ==> OwnedBy(r.slot.value.meta, key, uids))
      && (r.reply.Done? ==> OwnedBy(r.reply.obj.meta, key, uids))
  {
  }

  lemma SloKept(w: World, o: Slo, f: Fault, key: Key, uids: set<nat>)
    requires w.slo.Some? ==> OurSlo(w.slo.value, key, uids)
    requires OurSlo(o, key, uids)
    ensures var v := PutSlo(w, o, f).0; v.slo.Some? ==> OurSlo(v.slo.value, key, uids)
    ensures var v := PutSloStatus(w, o, f).0; v.slo.Some? ==> OurSlo(v.slo.value, key, uids)
  {
    hide AddsFinalizer;
  }

  lemma SlisLater(w: World, v: World, key: Key, uids: set<nat>, inline: set<nat>)
    requires SlisOwned(w, key, uids, inline) && v.slis == w.slis && w.clock <= v.clock
    ensures SlisOwned(v, key, uids, inline)
  {
  }

  lemma OwnedOnce<S, T>(o: Object<S, T>, slo: Slo, key: Key, uids: set<nat>)
    requires OwnedBy(o.meta, key, uids) && OurSlo(slo, key, uids)
    ensures SloController.Owned(o, slo).meta.owners == [SloController.OwnerOf(slo)]
    ensures OwnedBy(SloController.Owned(o, slo).meta, key, uids)
  {
  }

  lemma OwnersDecide(a: Meta, b: Meta, key: Key, uids: set<nat>)
    requires a.owners == b.owners
    ensures OwnedBy(a, key, uids) == OwnedBy(b, key, uids)
  {
  }

  lemma FinalizersKeepOwner<S, T>(o: Object<S, T>, f: string, key: Key, uids: set<nat>)
    ensures OwnedBy(WithFinalizer(o, f).meta, key, uids) == OwnedBy(o.meta, key, uids)
    ensures OwnedBy(WithoutFinalizer(o, f).meta, key, uids) == OwnedBy(o.meta, key, uids)
  {
    OwnersDecide(WithFinalizer(o, f).meta, o.meta, key, uids);
  }

  // ----- SLO controller -----

  lemma SliCreatedOwned(
    w: World, slo: Slo, indicator: Indicator, f: Fault, key: Key, uids: set<nat>, inline: set<nat>)
    requires SlisOwned(w, key, uids, inline) && OurSlo(slo, key, uids)
    ensures var v := CreateSli(w, SloController.NewInlineSli(slo, indicator), f).0;
      && v == w.(slis := v.slis, clock := v.clock) && w.clock <= v.clock
      && SlisOwned(v, key, uids, inline + NewSliUids(w, v))
      && (forall n | n != SloController.InlineName(slo, indicator) :: Lookup(v.slis, n) == Lookup(w.slis, n))
  {
    hide SloController.InlineName;
    var o := SloController.NewInlineSli(slo, indicator);
    var name := o.meta.name;
    var v := CreateSli(w, o, f).0;
    if name in w.slis || f == Dropped || name == "" {
      assert v.slis == w.slis;
      assert NewSliUids(w, v) == {};
      assert inline + {} == inline;
    } else {
      assert v.slis == w.slis[name := v.slis[name]] && v.clock == w.clock + 1;
      assert OwnedBy(v.slis[name].meta, key, uids);
      assert NewSliUids(w, v) == {w.clock + 1};
    }
  }

  lemma SliUpdatedOwned(w: World, sli: Sli, spec: SliSpec, f: Fault, key: Key, uids: set<nat>, inline: set<nat>)
    requires SlisOwned(w, key, uids, inline)
    requires Copy(sli, Lookup(w.slis, sli.meta.name), w.clock)
    requires sli.meta.uid in inline ==> OwnedBy(sli.meta, key, uids)
    ensures var v := PutSli(w, sli.(spec := spec), f).0;
      && v == w.(slis := v.slis, clock := v.clock) && w.clock <= v.clock
      && SlisOwned(v, key, uids, inline + NewSliUids(w, v))
      && (forall n | n != sli.meta.name :: Lookup(v.slis, n) == Lookup(w.slis, n))
  {
    hide AddsFinalizer, OwnedBy, Attempt, Replaced, SlisOwned;
    var name := sli.meta.name;
    var v := PutSli(w, sli.(spec := spec), f).0;
    SliReplaced(Lookup(w.slis, name), sli, spec, w.clock, f, key, uids, inline);
    OneSliMoved(w, v, name, key, uids, inline);
  }

  lemma SliReplaced(
    slot: Slot<SliSpec, ()>, sli: Sli, spec: SliSpec, clock: nat, f: Fault, key: Key, uids: set<nat>, inline: set<nat>)
    requires Copy(sli, slot, clock) && (sli.meta.uid in inline ==> OwnedBy(sli.meta, key, uids))
    ensures var r := Attempt(slot, Replaced(slot, sli.(spec := spec), clock), f).slot;
      r == slot || r.None? || (
        && slot.Some? && r.value.meta.uid == slot.value.meta.uid && r.value.meta.name == sli.meta.name
        && r.value.meta.version == clock + 1
        && (r.value.meta.uid in inline ==> OwnedBy(r.value.meta, key, uids)))
  {
    hide AddsFinalizer, OwnedBy;
    var r := Attempt(slot, Replaced(slot, sli.(spec := spec), clock), f).slot;
    if r.Some? && r != slot {
      OwnersDecide(r.value.meta, sli.meta, key, uids);
    }
  }

  /** One SLI unchanged, gone, or newly written under its old uid. */
  lemma OneSliMoved(w: World, v: World, name: string, key: Key, uids: set<nat>, inline: set<nat>)
    requires SlisOwned(w, key, uids, inline) && w.clock <= v.clock
    requires v.slis == w.slis || v.slis == w.slis - {name} || (
      && name in w.slis && name in v.slis && v.slis == w.slis[name := v.slis[name]]
      && v.slis[name].meta.uid == w.slis[name].meta.uid && v.slis[name].meta.name == name
      && 0 < v.slis[name].meta.version <= v.clock
      && (v.slis[name].meta.uid in inline ==> OwnedBy(v.slis[name].meta, key, uids)))
    ensures SlisOwned(v, key, uids, inline + NewSliUids(w, v))
  {
    hide OwnedBy;
    assert NewSliUids(w, v) == {};
    assert inline + {} == inline;
  }

  lemma CompiledOwned(cfg: Config, slo: Slo, sli: Sli, key: Key, uids: set<nat>)
    requires OurSlo(slo, key, uids)
    ensures CreatePrometheusRule(cfg, slo, sli).Success? ==>
      OwnedBy(CreatePrometheusRule(cfg, slo, sli).value.meta, key, uids)
    ensures HoldsOurs(SloController.CompileProm(cfg, slo, sli), key, uids)
  {
    hide RuleGroups;
  }

  lemma DerivedOwned(slo: Slo, p: PrometheusRule, connection: Connection, key: Key, uids: set<nat>)
    requires OurSlo(slo, key, uids)
    ensures OwnedBy(NewMimirRule(slo, p, connection).meta, key, uids)
  {
    hide ToMimirGroups;
  }

  // ----- Writes -----

  /** A call that leaves the SLIs alone. */
  predicate LeavesSlis(w: World, v: World)
  {
    v.slis == w.slis && w.clock <= v.clock && v.sources == w.sources
  }

  lemma IdleLeavesSlis(w: World)
    ensures LeavesSlis(w, w)
  {
  }

  lemma SloWrites(w: World, o: Slo, f: Fault, key: Key, uids: set<nat>)
    requires SlotsOwned(w, key, uids) && OurSlo(o, key, uids)
    ensures var v := PutSlo(w, o, f).0; SlotsOwned(v, key, uids) && LeavesSlis(w, v)
    ensures var v := PutSloStatus(w, o, f).0; SlotsOwned(v, key, uids) && LeavesSlis(w, v)
  {
    hide Attempt, Replaced, StatusReplaced, OwnedBy;
    SloKept(w, o, f, key, uids);
  }

  lemma PromWrites(w: World, o: PrometheusRule, f: Fault, key: Key, uids: set<nat>)
    requires SlotsOwned(w, key, uids)
    ensures OwnedBy(o.meta, key, uids) ==>
      var (v, reply) := CreateProm(w, o, f);
      SlotsOwned(v, key, uids) && LeavesSlis(w, v) && (reply.Done? ==> OwnedBy(reply.obj.meta, key, uids))
    ensures OwnedBy(o.meta, key, uids) ==>
      var (v, reply) := PutProm(w, o, f);
      SlotsOwned(v, key, uids) && LeavesSlis(w, v) && (reply.Done? ==> OwnedBy(reply.obj.meta, key, uids))
    ensures var v := PutPromStatus(w, o, f).0; SlotsOwned(v, key, uids) && LeavesSlis(w, v)
  {
    hide Attempt, Created, Replaced, StatusReplaced, OwnedBy, OurSlo;
    StatusOwned(w.prom, o, w.clock, f, key, uids);
    if OwnedBy(o.meta, key, uids) {
      CreateOwned(w.prom, o, w.clock, f, key, uids);
      ReplaceOwned(w.prom, o, w.clock, f, key, uids);
    }
  }

  lemma RuleWrites(w: World, o: MimirRule, f: Fault, key: Key, uids: set<nat>)
    requires SlotsOwned(w, key, uids)
    ensures OwnedBy(o.meta, key, uids) ==>
      var (v, reply) := CreateRule(w, o, f);
      SlotsOwned(v, key, uids) && LeavesSlis(w, v) && (reply.Done? ==> OwnedBy(reply.obj.meta, key, uids))
    ensures OwnedBy(o.meta, key, uids) ==>
      var (v, reply) := PutRule(w, o, f);
      SlotsOwned(v, key, uids) && LeavesSlis(w, v) && (reply.Done? ==> OwnedBy(reply.obj.meta, key, uids))
    ensures var v := PutRuleStatus(w, o, f).0; SlotsOwned(v, key, uids) && LeavesSlis(w, v)
  {
    hide Attempt, Created, Replaced, StatusReplaced, OwnedBy, OurSlo;
    StatusOwned(w.rule, o, w.clock, f, key, uids);
    if OwnedBy(o.meta, key, uids) {
      CreateOwned(w.rule, o, w.clock, f, key, uids);
      ReplaceOwned(w.rule, o, w.clock, f, key, uids);
    }
  }

  lemma OtherWrites(w: World, a: AlertManagerConfig, sli: Sli, f: Fault, key: Key, uids: set<nat>)
    requires SlotsOwned(w, key, uids)
    ensures var v := CreateAlerting(w, a, f).0; SlotsOwned(v, key, uids) && LeavesSlis(w, v)
    ensures var v := PutAlerting(w, a, f).0; SlotsOwned(v, key, uids) && LeavesSlis(w, v)
    ensures SlotsOwned(CreateSli(w, sli, f).0, key, uids) && SlotsOwned(PutSli(w, sli, f).0, key, uids)
  {
    hide Attempt, Created, Replaced, OwnedBy, OurSlo;
  }

  // ----- SLO controller calls -----

  lemma SloCallOwned(
    cfg: Config, pc: SloController.Pc, w: World, f: Fault, key: Key, uids: set<nat>, inline: set<nat>)
    requires WorldOwned(w, key, uids, inline) && SloHolds(pc, w, key, uids, inline)
    ensures var (pc', v) := SloController.Advance(cfg, pc, w, f);
      WorldOwned(v, key, uids, inline + NewSliUids(w, v)) && SloHolds(pc', v, key, uids, inline + NewSliUids(w, v))
  {
    hide OwnedBy, OurSlo, SloController.NewInlineSli, SlisOwned, SloController.InlineName, CreateSli, PutSli,
      SloController.AdvanceFinalizing, SloController.AdvanceMakingProm, SloController.AdvanceMakingRule,
      SloController.AdvanceConcluding, SlotsOwned, LeavesSlis;
    var (pc', v) := SloController.Advance(cfg, pc, w, f);
    SloCallSlots(cfg, pc, w, f, key, uids);
    SloCallInline(cfg, pc, w, f, key, uids, inline);
    if pc.CreateInline? {
      SliCreatedOwned(w, pc.slo, pc.indicator, f, key, uids, inline);
    } else if pc.UpdateInline? {
      SliUpdatedOwned(w, pc.sli, pc.indicator.spec, f, key, uids, inline);
    } else {
      SlisLeft(w, v, key, uids, inline);
    }
  }

  lemma SloCallWrites(
    cfg: Config, pc: SloController.Pc, w: World, f: Fault, key: Key, uids: set<nat>, inline: set<nat>)
    requires WorldOwned(w, key, uids, inline) && SloHolds(pc, w, key, uids, inline)
    ensures var v := SloController.Advance(cfg, pc, w, f).1;
      && v.sources == w.sources
      && forall n | Lookup(v.slis, n) != Lookup(w.slis, n) ::
           (pc.CreateInline? || pc.UpdateInline?) && n == SloController.InlineName(pc.slo, pc.indicator)
  {
    hide OwnedBy, OurSlo, SloController.NewInlineSli, SlisOwned, SloController.InlineName, CreateSli, PutSli,
      SloController.AdvanceFinalizing, SloController.AdvanceMakingProm, SloController.AdvanceMakingRule,
      SloController.AdvanceConcluding, SlotsOwned;
    SloCallSlots(cfg, pc, w, f, key, uids);
    if pc.CreateInline? {
      SliCreatedOwned(w, pc.slo, pc.indicator, f, key, uids, inline);
    } else if pc.UpdateInline? {
      SliUpdatedOwned(w, pc.sli, pc.indicator.spec, f, key, uids, inline);
    }
  }

  lemma SlisLeft(w: World, v: World, key: Key, uids: set<nat>, inline: set<nat>)
    requires SlisOwned(w, key, uids, inline) && LeavesSlis(w, v)
    ensures NewSliUids(w, v) == {} && inline + {} == inline && SlisOwned(v, key, uids, inline)
  {
    hide OwnedBy;
  }

  lemma SloCallSlots(cfg: Config, pc: SloController.Pc, w: World, f: Fault, key: Key, uids: set<nat>)
    requires SlotsOwned(w, key, uids) && HoldsOurs(pc, key, uids)
    ensures var (pc', v) := SloController.Advance(cfg, pc, w, f);
      && SlotsOwned(v, key, uids) && HoldsOurs(pc', key, uids)
      && (!pc.CreateInline? && !pc.UpdateInline? ==> LeavesSlis(w, v))
  {
    hide HoldsOurs, SlotsOwned, LeavesSlis, SloController.AdvanceFinalizing, SloController.AdvanceMakingProm,
      SloController.AdvanceMakingRule, SloController.AdvanceConcluding, SloController.AdvanceResolving;
    IdleLeavesSlis(w);
    if SloController.Finalizing(pc) {
      FinalizingOwned(cfg, pc, w, f, key, uids);
    } else if SloController.Resolving(pc) {
      ResolvingOwned(cfg, pc, w, f, key, uids);
    } else if SloController.MakingProm(pc) {
      MakingPromOwned(cfg, pc, w, f, key, uids);
    } else if SloController.MakingRule(pc) {
      MakingRuleOwned(cfg, pc, w, f, key, uids);
    } else if SloController.Concluding(pc) {
      ConcludingOwned(cfg, pc, w, f, key, uids);
    }
  }

  lemma FinalizingOwned(cfg: Config, pc: SloController.Pc, w: World, f: Fault, key: Key, uids: set<nat>)
    requires SloController.Finalizing(pc) && SlotsOwned(w, key, uids) && HoldsOurs(pc, key, uids)
    ensures var (pc', v) := SloController.AdvanceFinalizing(cfg, pc, w, f);
      SlotsOwned(v, key, uids) && HoldsOurs(pc', key, uids) && LeavesSlis(w, v)
  {
    hide SlotsOwned, LeavesSlis, OwnedBy, CreatePrometheusRule, NewMimirRule, SloController.NewInlineSli,
      SloController.NewAlerting, WithFinalizer, WithoutFinalizer, SloController.Owned, SloController.InlineName,
      PutSlo, PutSloStatus, CreateProm, PutProm, PutPromStatus, CreateRule, PutRule, PutRuleStatus, CreateAlerting,
      PutAlerting, CreateSli, PutSli;
    IdleLeavesSlis(w);
    StoredOurs(w, key, uids);
    if HasSlo(pc) {
      OurCopy(pc.slo, key, uids);
      SloWrites(w, WithoutFinalizer(pc.slo, SloController.SLO_FINALIZER), f, key, uids);
      SloWrites(w, WithFinalizer(pc.slo, SloController.SLO_FINALIZER), f, key, uids);
    }
  }

  lemma ResolvingOwned(cfg: Config, pc: SloController.Pc, w: World, f: Fault, key: Key, uids: set<nat>)
    requires SloController.Resolving(pc) && SlotsOwned(w, key, uids) && HoldsOurs(pc, key, uids)
    ensures var (pc', v) := SloController.AdvanceResolving(cfg, pc, w, f);
      SlotsOwned(v, key, uids) && HoldsOurs(pc', key, uids)
      && (!pc.CreateInline? && !pc.UpdateInline? ==> LeavesSlis(w, v))
  {
    hide SlotsOwned, LeavesSlis, OwnedBy, CreatePrometheusRule, NewMimirRule, SloController.NewInlineSli,
      SloController.NewAlerting, WithFinalizer, WithoutFinalizer, SloController.Owned, SloController.InlineName,
      PutSlo, PutSloStatus, CreateProm, PutProm, PutPromStatus, CreateRule, PutRule, PutRuleStatus, CreateAlerting,
      PutAlerting, CreateSli, PutSli;
    IdleLeavesSlis(w);
    match pc
    case SourceMissing(slo) => SloWrites(w, SloController.Ready(slo, "False"), f, key, uids);
    case CreateInline(slo, _, i) =>
      OtherWrites(w, SloController.NewAlerting(slo), SloController.NewInlineSli(slo, i), f, key, uids);
    case UpdateInline(slo, _, i, sli) =>
      OtherWrites(w, SloController.NewAlerting(slo), sli.(spec := i.spec), f, key, uids);
    case _ =>
  }

  lemma MakingPromOwned(cfg: Config, pc: SloController.Pc, w: World, f: Fault, key: Key, uids: set<nat>)
    requires SloController.MakingProm(pc) && SlotsOwned(w, key, uids) && HoldsOurs(pc, key, uids)
    ensures var (pc', v) := SloController.AdvanceMakingProm(cfg, pc, w, f);
      SlotsOwned(v, key, uids) && HoldsOurs(pc', key, uids) && LeavesSlis(w, v)
  {
    hide SlotsOwned, LeavesSlis, OwnedBy, SloController.CompileProm, NewMimirRule, SloController.NewInlineSli,
      SloController.NewAlerting, WithFinalizer, WithoutFinalizer, SloController.Owned, SloController.InlineName,
      PutSlo, PutSloStatus, CreateProm, PutProm, PutPromStatus, CreateRule, PutRule, PutRuleStatus, CreateAlerting,
      PutAlerting, CreateSli, PutSli;
    IdleLeavesSlis(w);
    match pc
    case GetProm(slo, _, sli) => CompiledOwned(cfg, slo, sli, key, uids);
    case MakeProm(_, p) => PromWrites(w, p, f, key, uids);
    case PromFailed(_, p) => PromWrites(w, p, f, key, uids);
    case OwnProm(slo, p) =>
      OwnedOnce(p, slo, key, uids);
      PromWrites(w, SloController.Owned(p, slo), f, key, uids);
    case MarkReady(slo) => SloWrites(w, SloController.Ready(slo, "True"), f, key, uids);
  }

  lemma MakingRuleOwned(cfg: Config, pc: SloController.Pc, w: World, f: Fault, key: Key, uids: set<nat>)
    requires SloController.MakingRule(pc) && SlotsOwned(w, key, uids) && HoldsOurs(pc, key, uids)
    ensures var (pc', v) := SloController.AdvanceMakingRule(cfg, pc, w, f);
      SlotsOwned(v, key, uids) && HoldsOurs(pc', key, uids) && LeavesSlis(w, v)
  {
    hide SlotsOwned, LeavesSlis, OwnedBy, CreatePrometheusRule, NewMimirRule, SloController.NewInlineSli,
      SloController.NewAlerting, WithFinalizer, WithoutFinalizer, SloController.Owned, SloController.InlineName,
      PutSlo, PutSloStatus, CreateProm, PutProm, PutPromStatus, CreateRule, PutRule, PutRuleStatus, CreateAlerting,
      PutAlerting, CreateSli, PutSli;
    IdleLeavesSlis(w);
    match pc
    case GetRule(slo, ds, p) => DerivedOwned(slo, p, ds.spec, key, uids);
    case MakeRule(_, m) => RuleWrites(w, m, f, key, uids);
    case RuleFailed(slo) => SloWrites(w, slo, f, key, uids);
    case OwnRule(slo, m) =>
      OwnedOnce(m, slo, key, uids);
      RuleWrites(w, SloController.Owned(m, slo), f, key, uids);
    case ReadySlo(slo, _) => SloWrites(w, SloController.Ready(slo, "True"), f, key, uids);
    case ReadyRule(m) => RuleWrites(w, m.(status := "True"), f, key, uids);
  }

  lemma ConcludingOwned(cfg: Config, pc: SloController.Pc, w: World, f: Fault, key: Key, uids: set<nat>)
    requires SloController.Concluding(pc) && SlotsOwned(w, key, uids) && HoldsOurs(pc, key, uids)
    ensures var (pc', v) := SloController.AdvanceConcluding(cfg, pc, w, f);
      SlotsOwned(v, key, uids) && HoldsOurs(pc', key, uids) && LeavesSlis(w, v)
  {
    hide SlotsOwned, LeavesSlis, OwnedBy, CreatePrometheusRule, NewMimirRule, SloController.NewInlineSli,
      SloController.NewAlerting, WithFinalizer, WithoutFinalizer, SloController.Owned, SloController.InlineName,
      PutSlo, PutSloStatus, CreateProm, PutProm, PutPromStatus, CreateRule, PutRule, PutRuleStatus, CreateAlerting,
      PutAlerting, CreateSli, PutSli;
    IdleLeavesSlis(w);
    match pc
    case MarkFalse(slo, message, _) =>
      SloWrites(w, SloController.WithReadyCondition(slo, "False", message, w.now), f, key, uids);
    case Conclude(slo) =>
      SloWrites(w, SloController.WithReadyCondition(slo, "True", "PrometheusRule created", w.now), f, key, uids);
    case MakeAlerting(slo) => OtherWrites(w, SloController.NewAlerting(slo), NO_SLI, f, key, uids);
    case OwnAlerting(slo, a) => OtherWrites(w, SloController.Owned(a, slo), NO_SLI, f, key, uids);
    case _ =>
  }

  lemma StoredOurs(w: World, key: Key, uids: set<nat>)
    requires SlotsOwned(w, key, uids)
    ensures w.slo.Some? ==> OurSlo(w.slo.value, key, uids)
    ensures w.prom.Some? ==> OwnedBy(w.prom.value.meta, key, uids)
    ensures w.rule.Some? ==> OwnedBy(w.rule.value.meta, key, uids)
  {
    hide OwnedBy, OurSlo;
  }

  lemma SloCallInline(
    cfg: Config, pc: SloController.Pc, w: World, f: Fault, key: Key, uids: set<nat>, inline: set<nat>)
    requires SlisOwned(w, key, uids, inline) && HoldsInline(pc, w, key, uids, inline)
    ensures var (pc', v) := SloController.Advance(cfg, pc, w, f); HoldsInline(pc', v, key, uids, inline)
  {
    hide HoldsInline, SloController.AdvanceFinalizing, SloController.AdvanceMakingProm,
      SloController.AdvanceMakingRule, SloController.AdvanceConcluding, SloController.AdvanceResolving;
    if SloController.Resolving(pc) {
      ResolvingInline(cfg, pc, w, f, key, uids, inline);
    } else {
      OthersHoldNoSli(cfg, pc, w, f);
      NoInline(SloController.Advance(cfg, pc, w, f).0, SloController.Advance(cfg, pc, w, f).1, key, uids, inline);
    }
  }

  lemma NoInline(pc: SloController.Pc, w: World, key: Key, uids: set<nat>, inline: set<nat>)
    requires !pc.GetInline? && !pc.CreateInline? && !pc.UpdateInline?
    ensures HoldsInline(pc, w, key, uids, inline)
  {
  }

  lemma OthersHoldNoSli(cfg: Config, pc: SloController.Pc, w: World, f: Fault)
    requires !SloController.Resolving(pc)
    ensures var pc' := SloController.Advance(cfg, pc, w, f).0;
      !pc'.GetInline? && !pc'.CreateInline? && !pc'.UpdateInline?
  {
    hide OwnedBy, CreatePrometheusRule, NewMimirRule, SloController.Ready, SloController.NewInlineSli,
      SloController.NewAlerting, SloController.WithReadyCondition, WithFinalizer, WithoutFinalizer,
      SloController.Owned, SloController.InlineName, OurSlo, PutSlo, PutSloStatus, PutPromStatus, PutRuleStatus,
      PutProm, PutRule, CreateAlerting, PutAlerting, CreateProm, CreateRule, CreateSli, PutSli, SlisOwned, Copy;
  }

  lemma ResolvingInline(
    cfg: Config, pc: SloController.Pc, w: World, f: Fault, key: Key, uids: set<nat>, inline: set<nat>)
    requires SloController.Resolving(pc) && SlisOwned(w, key, uids, inline) && HoldsInline(pc, w, key, uids, inline)
    ensures var (pc', v) := SloController.AdvanceResolving(cfg, pc, w, f); HoldsInline(pc', v, key, uids, inline)
  {
    hide OwnedBy, CreatePrometheusRule, NewMimirRule, SloController.Ready, SloController.NewInlineSli,
      SloController.NewAlerting, SloController.WithReadyCondition, WithFinalizer, WithoutFinalizer,
      SloController.Owned, SloController.InlineName, OurSlo, PutSlo, PutSloStatus, PutPromStatus, PutRuleStatus,
      PutProm, PutRule, CreateAlerting, PutAlerting, CreateProm, CreateRule, CreateSli, PutSli, SlisOwned, Copy;
    if pc.GetInline? && SloController.InlineName(pc.slo, pc.indicator) in w.slis {
      FoundInline(w, SloController.InlineName(pc.slo, pc.indicator), key, uids, inline);
    }
  }

  lemma FoundInline(w: World, name: string, key: Key, uids: set<nat>, inline: set<nat>)
    requires SlisOwned(w, key, uids, inline) && name in w.slis
    ensures w.slis[name].meta.name == name && Copy(w.slis[name], Lookup(w.slis, name), w.clock)
    ensures w.slis[name].meta.uid in inline ==> OwnedBy(w.slis[name].meta, key, uids)
  {
  }

  lemma OurCopy(slo: Slo, key: Key, uids: set<nat>)
    requires OurSlo(slo, key, uids)
    ensures forall finalizer ::
      OurSlo(WithFinalizer(slo, finalizer), key, uids) && OurSlo(WithoutFinalizer(slo, finalizer), key, uids)
  {
  }

  // ----- The other controllers -----

  lemma PromCallOwned(cfg: Config, pc: PromController.Pc, w: World, f: Fault, key: Key, uids: set<nat>)
    requires SlotsOwned(w, key, uids) && PromHolds(pc, key, uids)
    ensures var (pc', v) := PromController.Advance(cfg, pc, w, f);
      SlotsOwned(v, key, uids) && PromHolds(pc', key, uids) && LeavesSlis(w, v)
  {
    hide SlotsOwned, PromHolds, LeavesSlis, PromController.AdvanceDeriving, PromController.AdvanceWriting;
    if PromController.Deriving(pc) {
      DerivingOwned(cfg, pc, w, f, key, uids);
    } else if PromController.Writing(pc) {
      WritingOwned(cfg, pc, w, f, key, uids);
    } else {
      IdleLeavesSlis(w);
    }
  }

  lemma DerivingOwned(cfg: Config, pc: PromController.Pc, w: World, f: Fault, key: Key, uids: set<nat>)
    requires PromController.Deriving(pc) && SlotsOwned(w, key, uids) && PromHolds(pc, key, uids)
    ensures var (pc', v) := PromController.AdvanceDeriving(cfg, pc, w, f);
      SlotsOwned(v, key, uids) && PromHolds(pc', key, uids) && LeavesSlis(w, v)
  {
    hide SlotsOwned, LeavesSlis, OwnedBy, CreatePrometheusRule, PutSloStatus, PutProm, PromController.InlineSli,
      PromController.Derive, PromController.SloRef;
    IdleLeavesSlis(w);
    StoredOurs(w, key, uids);
    match pc
    case GetProm =>
      if w.prom.Some? {
        RefOfOwned(w.prom.value.meta, key, uids);
      }
    case GetOwner(p, name) =>
      if w.slo.Some? && w.slo.value.spec.indicator.Some? {
        DerivesOwned(cfg, p, w.slo.value, PromController.InlineSli(w.slo.value.spec.indicator.value), key, uids);
      }
    case GetSli(p, slo, name) =>
      if name in w.slis {
        DerivesOwned(cfg, p, slo, w.slis[name], key, uids);
      }
    case SliMissing(slo) => SloWrites(w, PromController.WithReady(slo, w.now), f, key, uids);
    case NoIndicator(slo) => SloWrites(w, PromController.WithReady(slo, w.now), f, key, uids);
  }

  lemma WritingOwned(cfg: Config, pc: PromController.Pc, w: World, f: Fault, key: Key, uids: set<nat>)
    requires PromController.Writing(pc) && SlotsOwned(w, key, uids) && PromHolds(pc, key, uids)
    ensures var (pc', v) := PromController.AdvanceWriting(cfg, pc, w, f);
      SlotsOwned(v, key, uids) && PromHolds(pc', key, uids) && LeavesSlis(w, v)
  {
    hide SlotsOwned, LeavesSlis, OwnedBy, PutSloStatus, PutProm;
    IdleLeavesSlis(w);
    StoredOurs(w, key, uids);
    match pc
    case OverwritePut(derived, _, p, _) =>
      OwnersDecide(derived.meta.(version := p.meta.version), derived.meta, key, uids);
      PromWrites(w, derived.(meta := derived.meta.(version := p.meta.version)), f, key, uids);
    case TouchPut(_, slo, _, _) => SloWrites(w, slo, f, key, uids);
    case _ =>
  }

  lemma RefOfOwned(meta: Meta, key: Key, uids: set<nat>)
    requires OwnedBy(meta, key, uids)
    ensures PromController.SloRef(meta.owners) == Some(meta.owners[0]) && meta.owners[0].name == key.name
    ensures MimirController.SloRefs(meta.owners) == meta.owners && |meta.owners| == 1
  {
  }

  lemma DerivesOwned(cfg: Config, p: PrometheusRule, slo: Slo, sli: Sli, key: Key, uids: set<nat>)
    requires OurSlo(slo, key, uids)
    ensures var pc := PromController.Derive(cfg, p, slo, sli);
      PromHolds(pc, key, uids) && (pc.Stop? || pc.OverwriteGet?)
  {
    hide CreatePrometheusRule;
    CompiledOwned(cfg, slo, sli, key, uids);
  }

  /** The local work between calls keeps what the MimirRule controller holds. */
  lemma LocalWorkHolds(
    cfg: Config, p: PrometheusRule, m: MimirRule, slo: Slo, pushes: seq<PushedGroup>, key: Key, uids: set<nat>)
    requires OurSlo(slo, key, uids)
    ensures RuleHolds(MimirController.AfterPushing(p, m, slo, pushes), key, uids)
    ensures RuleHolds(MimirController.AfterRuleGuard(p, m, slo), key, uids)
    ensures RuleHolds(MimirController.AfterGuards(p, m, slo), key, uids)
    ensures RuleHolds(MimirController.AfterOwners(cfg, p, m, slo), key, uids)
  {
    hide OwnedBy, Pushes, ToMimirGroups, NewMimirRule, OurSlo;
    DerivedOwned(slo, p, m.spec.connection, key, uids);
  }

  lemma RulerLeaves(w: World, v: World, key: Key, uids: set<nat>)
    requires SlotsOwned(w, key, uids) && v == w.(ruler := v.ruler)
    ensures SlotsOwned(v, key, uids) && LeavesSlis(w, v)
  {
    hide OwnedBy, OurSlo;
  }

  lemma RuleCallOwned(cfg: Config, pc: MimirController.Pc, w: World, f: Fault, key: Key, uids: set<nat>)
    requires SlotsOwned(w, key, uids) && RuleHolds(pc, key, uids)
    ensures var (pc', v) := MimirController.Advance(cfg, pc, w, f);
      SlotsOwned(v, key, uids) && RuleHolds(pc', key, uids) && LeavesSlis(w, v)
  {
    hide SlotsOwned, RuleHolds, LeavesSlis, MimirController.AdvanceReading, MimirController.AdvanceReleasing,
      MimirController.AdvanceGuarding, MimirController.AdvanceOverwriting;
    if MimirController.Reading(pc) {
      ReadingOwned(cfg, pc, w, f, key, uids);
    } else if MimirController.Releasing(pc) {
      ReleasingOwned(cfg, pc, w, f, key, uids);
    } else if MimirController.Guarding(pc) {
      GuardingOwned(cfg, pc, w, f, key, uids);
    } else if MimirController.Overwriting(pc) {
      OverwritingOwned(cfg, pc, w, f, key, uids);
    } else {
      IdleLeavesSlis(w);
    }
  }

  lemma ReadingOwned(cfg: Config, pc: MimirController.Pc, w: World, f: Fault, key: Key, uids: set<nat>)
    requires MimirController.Reading(pc) && SlotsOwned(w, key, uids) && RuleHolds(pc, key, uids)
    ensures var (pc', v) := MimirController.AdvanceReading(cfg, pc, w, f);
      SlotsOwned(v, key, uids) && RuleHolds(pc', key, uids) && LeavesSlis(w, v)
  {
    hide SlotsOwned, LeavesSlis, OwnedBy, PutProm, PutRule, PutRuleStatus, NewMimirRule, Pushes, ToMimirGroups,
      Names, WithFinalizer, WithoutFinalizer, MimirController.AfterOwners, MimirController.SloRefs;
    IdleLeavesSlis(w);
    StoredOurs(w, key, uids);
    if pc.GetRule? && w.rule.Some? {
      RefOfOwned(w.rule.value.meta, key, uids);
    }
    if pc.GetOwner? && w.slo.Some? {
      LocalWorkHolds(cfg, pc.prom, pc.rule, w.slo.value, [], key, uids);
    }
  }

  lemma ReleasingOwned(cfg: Config, pc: MimirController.Pc, w: World, f: Fault, key: Key, uids: set<nat>)
    requires MimirController.Releasing(pc) && SlotsOwned(w, key, uids) && RuleHolds(pc, key, uids)
    ensures var (pc', v) := MimirController.AdvanceReleasing(cfg, pc, w, f);
      SlotsOwned(v, key, uids) && RuleHolds(pc', key, uids) && LeavesSlis(w, v)
  {
    hide SlotsOwned, LeavesSlis, OwnedBy, PutProm, PutRule, PutRuleStatus, NewMimirRule, Pushes, ToMimirGroups,
      Names, WithFinalizer, WithoutFinalizer;
    IdleLeavesSlis(w);
    StoredOurs(w, key, uids);
    match pc
    case Deleting(_, _, names) => RulerLeaves(w, MimirController.AdvanceReleasing(cfg, pc, w, f).1, key, uids);
    case ReleaseRulePut(p, m, _) =>
      FinalizersKeepOwner(m, MimirController.RULE_FINALIZER, key, uids);
      RuleWrites(w, WithoutFinalizer(m, MimirController.RULE_FINALIZER), f, key, uids);
    case ReleasePromPut(p, _) =>
      FinalizersKeepOwner(p, MimirController.PROM_FINALIZER, key, uids);
      PromWrites(w, WithoutFinalizer(p, MimirController.PROM_FINALIZER), f, key, uids);
    case _ =>
  }

  lemma RuleGuardWritten(
    cfg: Config, w: World, p: PrometheusRule, m: MimirRule, slo: Slo, f: Fault, key: Key, uids: set<nat>)
    requires SlotsOwned(w, key, uids) && OurSlo(slo, key, uids) && OwnedBy(m.meta, key, uids)
    ensures var (v, reply) := PutRule(w, WithFinalizer(m, MimirController.RULE_FINALIZER), f);
      && SlotsOwned(v, key, uids) && LeavesSlis(w, v)
      && (reply.Done? ==> RuleHolds(MimirController.AfterRuleGuard(p, reply.obj, slo), key, uids))
  {
    hide SlotsOwned, LeavesSlis, OwnedBy, OurSlo, PutRule, WithFinalizer, MimirController.AfterRuleGuard, RuleHolds;
    var guarded := WithFinalizer(m, MimirController.RULE_FINALIZER);
    FinalizersKeepOwner(m, MimirController.RULE_FINALIZER, key, uids);
    RuleWrites(w, guarded, f, key, uids);
    if PutRule(w, guarded, f).1.Done? {
      LocalWorkHolds(cfg, p, PutRule(w, guarded, f).1.obj, slo, [], key, uids);
    }
  }

  lemma PromGuardWritten(
    cfg: Config, w: World, p: PrometheusRule, m: MimirRule, slo: Slo, f: Fault, key: Key, uids: set<nat>)
    requires SlotsOwned(w, key, uids) && OurSlo(slo, key, uids) && OwnedBy(p.meta, key, uids)
    ensures var (v, reply) := PutProm(w, WithFinalizer(p, MimirController.PROM_FINALIZER), f);
      && SlotsOwned(v, key, uids) && LeavesSlis(w, v)
      && (reply.Done? ==> RuleHolds(MimirController.AfterGuards(reply.obj, m, slo), key, uids))
  {
    hide SlotsOwned, LeavesSlis, OwnedBy, OurSlo, PutProm, WithFinalizer, MimirController.AfterGuards, RuleHolds;
    var guarded := WithFinalizer(p, MimirController.PROM_FINALIZER);
    FinalizersKeepOwner(p, MimirController.PROM_FINALIZER, key, uids);
    PromWrites(w, guarded, f, key, uids);
    if PutProm(w, guarded, f).1.Done? {
      LocalWorkHolds(cfg, PutProm(w, guarded, f).1.obj, m, slo, [], key, uids);
    }
  }

  lemma GuardingOwned(cfg: Config, pc: MimirController.Pc, w: World, f: Fault, key: Key, uids: set<nat>)
    requires MimirController.Guarding(pc) && SlotsOwned(w, key, uids) && RuleHolds(pc, key, uids)
    ensures var (pc', v) := MimirController.AdvanceGuarding(cfg, pc, w, f);
      SlotsOwned(v, key, uids) && RuleHolds(pc', key, uids) && LeavesSlis(w, v)
  {
    hide SlotsOwned, LeavesSlis, OwnedBy, OurSlo, PutProm, PutRule, PutRuleStatus, NewMimirRule, Pushes,
      ToMimirGroups, Names, WithFinalizer, WithoutFinalizer, MimirController.AfterPushing,
      MimirController.AfterRuleGuard, MimirController.AfterGuards;
    IdleLeavesSlis(w);
    StoredOurs(w, key, uids);
    match pc
    case Pushing(p, m, slo, pushes) =>
      RulerLeaves(w, MimirController.AdvanceGuarding(cfg, pc, w, f).1, key, uids);
      LocalWorkHolds(cfg, p, m, slo, if pushes == [] then [] else pushes[1..], key, uids);
    case GuardRuleGet(p, slo, _) =>
      if w.rule.Some? {
        LocalWorkHolds(cfg, p, w.rule.value, slo, [], key, uids);
      }
    case GuardPromGet(m, slo, _) =>
      if w.prom.Some? {
        LocalWorkHolds(cfg, w.prom.value, m, slo, [], key, uids);
      }
    case GuardRulePut(p, slo, m, _) => RuleGuardWritten(cfg, w, p, m, slo, f, key, uids);
    case GuardPromPut(m, slo, p, _) => PromGuardWritten(cfg, w, p, m, slo, f, key, uids);
  }

  lemma OverwritingOwned(cfg: Config, pc: MimirController.Pc, w: World, f: Fault, key: Key, uids: set<nat>)
    requires MimirController.Overwriting(pc) && SlotsOwned(w, key, uids) && RuleHolds(pc, key, uids)
    ensures var (pc', v) := MimirController.AdvanceOverwriting(cfg, pc, w, f);
      SlotsOwned(v, key, uids) && RuleHolds(pc', key, uids) && LeavesSlis(w, v)
  {
    hide SlotsOwned, LeavesSlis, OwnedBy, PutProm, PutRule, PutRuleStatus, NewMimirRule, Pushes, ToMimirGroups,
      Names, WithFinalizer, WithoutFinalizer;
    IdleLeavesSlis(w);
    StoredOurs(w, key, uids);
    match pc
    case OverwritePut(derived, m, _) =>
      OwnersDecide(derived.meta.(version := m.meta.version), derived.meta, key, uids);
      RuleWrites(w, derived.(meta := derived.meta.(version := m.meta.version)), f, key, uids);
    case MarkFailed(m) => RuleWrites(w, m.(status := "False"), f, key, uids);
    case MarkReadyPut(m, _) => RuleWrites(w, m.(status := "True"), f, key, uids);
    case _ =>
  }


  // ----- Users -----

  lemma UserOwned(key: Key, w: World, a: Action, uids: set<nat>, inline: set<nat>)
    requires !a.EditProm? && !a.EditRule? && WorldOwned(w, key, uids, inline)
    ensures var v := Act(key, w, a); w.clock <= v.clock && WorldOwned(v, key, uids + SloUid(v), inline)
    ensures forall n :: Evolves(Lookup(w.slis, n), w.clock, Lookup(Act(key, w, a).slis, n), Act(key, w, a).clock)
  {
    hide OwnedBy, Replaced;
    var v := Act(key, w, a);
    MoreUids(w, key, uids, uids + SloUid(v), inline);
    UserSlots(key, w, a, uids);
    UserSlis(key, w, a, uids + SloUid(v), inline);
  }

  lemma MoreUids(w: World, key: Key, uids: set<nat>, more: set<nat>, inline: set<nat>)
    requires uids <= more && WorldOwned(w, key, uids, inline)
    ensures WorldOwned(w, key, more, inline)
  {
  }

  lemma UserSlots(key: Key, w: World, a: Action, uids: set<nat>)
    requires !a.EditProm? && !a.EditRule? && SlotsOwned(w, key, uids)
    ensures SlotsOwned(Act(key, w, a), key, uids + SloUid(Act(key, w, a)))
  {
    hide AddsFinalizer;
  }

  lemma UserSlis(key: Key, w: World, a: Action, uids: set<nat>, inline: set<nat>)
    requires !a.EditProm? && !a.EditRule? && SlisOwned(w, key, uids, inline)
    ensures var v := Act(key, w, a); w.clock <= v.clock && SlisOwned(v, key, uids, inline)
    ensures forall n :: Evolves(Lookup(w.slis, n), w.clock, Lookup(Act(key, w, a).slis, n), Act(key, w, a).clock)
  {
    hide Replaced, DeletionRequested, Created, SlisOwned, OwnedBy;
    if a.WriteSli? {
      SliWritten(w, a.name, a.owners, a.sli, key, uids, inline);
    } else if a.DeleteSli? {
      SliDeleted(w, a.name, key, uids, inline);
    } else {
      UserLeavesSlis(key, w, a);
      SlisLater(w, Act(key, w, a), key, uids, inline);
    }
  }

  lemma UserLeavesSlis(key: Key, w: World, a: Action)
    requires !a.WriteSli? && !a.DeleteSli?
    ensures Act(key, w, a).slis == w.slis && w.clock <= Act(key, w, a).clock
  {
    hide Replaced, DeletionRequested, Created;
  }

  lemma SliWritten(
    w: World, name: string, owners: seq<OwnerRef>, spec: SliSpec, key: Key, uids: set<nat>, inline: set<nat>)
    requires SlisOwned(w, key, uids, inline)
    ensures var v := w.(slis := w.slis[name := WrittenSli(w, name, owners, spec)], clock := w.clock + 1);
      && SlisOwned(v, key, uids, inline)
      && forall n :: Evolves(Lookup(w.slis, n), w.clock, Lookup(v.slis, n), v.clock)
  {
    hide OwnedBy;
    var sli := WrittenSli(w, name, owners, spec);
    if name in w.slis {
      OwnersDecide(sli.meta, w.slis[name].meta, key, uids);
    } else {
      assert sli.meta.uid !in inline;
    }
  }

  lemma SliDeleted(w: World, name: string, key: Key, uids: set<nat>, inline: set<nat>)
    requires SlisOwned(w, key, uids, inline)
    ensures var v := w.(slis := w.slis - {name}, clock := w.clock + 1);
      && SlisOwned(v, key, uids, inline)
      && forall n :: Evolves(Lookup(w.slis, n), w.clock, Lookup(v.slis, n), v.clock)
  {
    hide OwnedBy;
  }

  // ----- Runs -----

  /** A copy of an SLI stays a copy while the SLIs move on. */
  lemma HeldLater(pc: SloController.Pc, w: World, v: World, key: Key, uids: set<nat>, inline: set<nat>)
    requires SloHolds(pc, w, key, uids, inline) && w.clock <= v.clock
    requires v.slis == w.slis || forall n :: Evolves(Lookup(w.slis, n), w.clock, Lookup(v.slis, n), v.clock)
    ensures SloHolds(pc, v, key, uids, inline)
  {
    hide OwnedBy, OurSlo;
    if pc.UpdateInline? {
      var name := pc.sli.meta.name;
      CopySurvives(pc.sli, Lookup(w.slis, name), w.clock, Lookup(v.slis, name), v.clock);
    }
  }

  lemma MoreHeld(
    pc: SloController.Pc, prom: PromController.Pc, rule: MimirController.Pc, w: World, key: Key,
    uids: set<nat>, more: set<nat>, inline: set<nat>)
    requires SloHolds(pc, w, key, uids, inline) && PromHolds(prom, key, uids) && RuleHolds(rule, key, uids)
    requires uids <= more
    ensures SloHolds(pc, w, key, more, inline) && PromHolds(prom, key, more) && RuleHolds(rule, key, more)
  {
  }

  lemma {:induction false} StepOwned(cfg: Config, key: Key, s: System, e: Event)
    requires Owned(s, key) && !Intrusion(e)
    ensures Owned(Step(cfg, key, s, e), key)
  {
    hide SlotsOwned, SlisOwned, HoldsOurs, HoldsInline, PromHolds, RuleHolds;
    match e
    case Start(c) => StartOwned(cfg, key, s, c);
    case Crash(c) => StartOwned(cfg, key, s, c);
    case Call(SloCtl, f) => SloStepOwned(cfg, key, s, f);
    case Call(PromCtl, f) => PromStepOwned(cfg, key, s, f);
    case Call(RuleCtl, f) => RuleStepOwned(cfg, key, s, f);
    case User(a) => UserStepOwned(cfg, key, s, a);
  }

  lemma StartOwned(cfg: Config, key: Key, s: System, c: Controller)
    requires Owned(s, key)
    ensures Owned(Step(cfg, key, s, Start(c)), key) && Owned(Step(cfg, key, s, Crash(c)), key)
  {
    hide WorldOwned, SloController.Advance, PromController.Advance, MimirController.Advance, Act, OwnedBy, OurSlo;
  }

  lemma SloStepOwned(cfg: Config, key: Key, s: System, f: Fault)
    requires Owned(s, key)
    ensures Owned(Step(cfg, key, s, Call(SloCtl, f)), key)
  {
    hide SlotsOwned, SlisOwned, HoldsOurs, HoldsInline, PromHolds, RuleHolds, SloController.Advance;
    var (pc, w) := SloController.Advance(cfg, s.slo, s.w, f);
    var inline := s.inlineUids + NewSliUids(s.w, w);
    SloCallOwned(cfg, s.slo, s.w, f, key, s.sloUids, s.inlineUids);
    MoreUids(w, key, s.sloUids, s.sloUids + SloUid(w), inline);
    MoreHeld(pc, s.prom, s.rule, w, key, s.sloUids, s.sloUids + SloUid(w), inline);
  }

  lemma PromStepOwned(cfg: Config, key: Key, s: System, f: Fault)
    requires Owned(s, key)
    ensures Owned(Step(cfg, key, s, Call(PromCtl, f)), key)
  {
    hide SlotsOwned, SlisOwned, HoldsOurs, PromHolds, RuleHolds, PromController.Advance;
    var (pc, w) := PromController.Advance(cfg, s.prom, s.w, f);
    PromCallOwned(cfg, s.prom, s.w, f, key, s.sloUids);
    SlisLater(s.w, w, key, s.sloUids, s.inlineUids);
    HeldLater(s.slo, s.w, w, key, s.sloUids, s.inlineUids);
    MoreUids(w, key, s.sloUids, s.sloUids + SloUid(w), s.inlineUids);
    MoreHeld(s.slo, pc, s.rule, w, key, s.sloUids, s.sloUids + SloUid(w), s.inlineUids);
  }

  lemma RuleStepOwned(cfg: Config, key: Key, s: System, f: Fault)
    requires Owned(s, key)
    ensures Owned(Step(cfg, key, s, Call(RuleCtl, f)), key)
  {
    hide SlotsOwned, SlisOwned, HoldsOurs, PromHolds, RuleHolds, MimirController.Advance;
    var (pc, w) := MimirController.Advance(cfg, s.rule, s.w, f);
    RuleCallOwned(cfg, s.rule, s.w, f, key, s.sloUids);
    SlisLater(s.w, w, key, s.sloUids, s.inlineUids);
    HeldLater(s.slo, s.w, w, key, s.sloUids, s.inlineUids);
    MoreUids(w, key, s.sloUids, s.sloUids + SloUid(w), s.inlineUids);
    MoreHeld(s.slo, s.prom, pc, w, key, s.sloUids, s.sloUids + SloUid(w), s.inlineUids);
  }

  lemma UserStepOwned(cfg: Config, key: Key, s: System, a: Action)
    requires Owned(s, key) && !a.EditProm? && !a.EditRule?
    ensures Owned(Step(cfg, key, s, User(a)), key)
  {
    hide SlotsOwned, SlisOwned, HoldsOurs, PromHolds, RuleHolds, Act;
    var w := Act(key, s.w, a);
    UserOwned(key, s.w, a, s.sloUids, s.inlineUids);
    HeldLater(s.slo, s.w, w, key, s.sloUids, s.inlineUids);
    MoreHeld(s.slo, s.prom, s.rule, w, key, s.sloUids, s.sloUids + SloUid(w), s.inlineUids);
  }

  /** In every reachable state, with failures, crashes and users anywhere, everything generated has its owner. */
  lemma {:induction false} OwnershipAlways(cfg: Config, key: Key, s: System, events: seq<Event>)
    requires Initial(s) && forall i :: 0 <= i < |events| ==> !Intrusion(events[i])
    ensures Owned(Run(cfg, key, s, events), key)
  {
    hide Step;
    if events == [] {
    } else {
      var before := events[..|events| - 1];
      OwnershipAlways(cfg, key, s, before);
      StepOwned(cfg, key, Run(cfg, key, s, before), events[|events| - 1]);
    }
  }

  ghost predicate ChildrenOwned(w: World, key: Key, uids: set<nat>, inline: set<nat>)
  {
    && (w.prom.Some? ==> OwnedBy(w.prom.value.meta, key, uids))
    && (w.rule.Some? ==> OwnedBy(w.rule.value.meta, key, uids))
    && (forall n | n in w.slis && w.slis[n].meta.uid in inline :: OwnedBy(w.slis[n].meta, key, uids))
  }

  /**
   That is: the PrometheusRule, the MimirRule and every inline SLI carry one owner reference, to an SLO of this
   name under a uid such an SLO has had.
   */
  lemma GeneratedObjectsOwned(cfg: Config, key: Key, s: System, events: seq<Event>)
    requires Initial(s) && forall i :: 0 <= i < |events| ==> !Intrusion(events[i])
    ensures var t := Run(cfg, key, s, events); ChildrenOwned(t.w, key, t.sloUids, t.inlineUids)
  {
    hide Run, Initial, OwnedBy, SloHolds, PromHolds, RuleHolds;
    OwnershipAlways(cfg, key, s, events);
  }

  /** A controller's call writes no datasource, and no SLI except the one an SLO without a reference names inline. */
  lemma CallsWriteOnlyInlineSlis(cfg: Config, key: Key, s: System, c: Controller, f: Fault, name: string)
    requires Owned(s, key)
    ensures var t := Step(cfg, key, s, Call(c, f));
      && t.w.sources == s.w.sources
      && (Lookup(t.w.slis, name) != Lookup(s.w.slis, name) ==>
            && c == SloCtl && (s.slo.CreateInline? || s.slo.UpdateInline?)
            && InlineOf(s.slo.slo, s.slo.indicator) && name == SloController.InlineName(s.slo.slo, s.slo.indicator))
  {
    hide SloController.Advance, PromController.Advance, MimirController.Advance, SlotsOwned, SlisOwned, HoldsOurs;
    match c
    case RuleCtl => RuleCallOwned(cfg, s.rule, s.w, f, key, s.sloUids);
    case PromCtl => PromCallOwned(cfg, s.prom, s.w, f, key, s.sloUids);
    case SloCtl => SloCallWrites(cfg, s.slo, s.w, f, key, s.sloUids, s.inlineUids);
  }

  /** In every reachable state the controllers write no datasource and no SLI but the one named inline. */
  lemma ReferencesNeverWritten(
    cfg: Config, key: Key, s: System, events: seq<Event>, c: Controller, f: Fault, name: string)
    requires Initial(s) && forall i :: 0 <= i < |events| ==> !Intrusion(events[i])
    ensures var t := Run(cfg, key, s, events); var u := Step(cfg, key, t, Call(c, f));
      && u.w.sources == t.w.sources
      && (Lookup(u.w.slis, name) != Lookup(t.w.slis, name) ==>
            && c == SloCtl && (t.slo.CreateInline? || t.slo.UpdateInline?)
            && InlineOf(t.slo.slo, t.slo.indicator) && name == SloController.InlineName(t.slo.slo, t.slo.indicator))
  {
    hide Run, Step, Owned, Initial;
    OwnershipAlways(cfg, key, s, events);
    CallsWriteOnlyInlineSlis(cfg, key, Run(cfg, key, s, events), c, f, name);
  }
}
