/**
 Readiness: a Ready condition that says True means the children exist, in every joint run where nobody
 deletes children, the magic-alerting choice is fixed and the look for a missing MimirRule answers.  The Ready
 text alone means less: only that the PrometheusRule exists.
 */
module Readiness {
  import opened Text
  import opened Selectors
  import opened Api
  import opened RuleCompiler
  import opened Conditions
  import opened MimirTranslation
  import opened ObjectStore
  import opened Cluster
  import opened SloController
  import PromController
  import MimirController
  import SloConvergence
  import opened JointRuns

  predicate Chosen(annotations: Labels, magic: bool)
  {
    (Get(annotations, "osko.dev/magicAlerting") == "true") == magic
  }

  /**
   What one step may be: anything but an outside edit or deletion of a child, a changed choice of magic
   alerting, or a failing read where the SLO controller looks for a MimirRule that does not exist.
   */
  predicate Allowed(magic: bool, s: System, e: Event)
  {
    && !Intrusion(e)
    && (e.Call? && e.c == SloCtl && s.slo.GetRule? && s.w.rule.None? ==> e.f == Fine)
    && (e.User? ==>
          && !e.a.DeleteProm? && !e.a.DeleteRule? && !e.a.DeleteAlerting?
          && (e.a.CreateSlo? || e.a.EditSlo? ==> Chosen(e.a.annotations, magic)))
  }

  // ----- The invariant -----

  predicate Children(w: World, magic: bool)
  {
    w.prom.Some? && w.rule.Some? && (magic ==> w.alerting.Some?)
  }

  /** A status that promises no more than there is: in its Ready condition all children, in its text one. */
  predicate Truthful(status: SloStatus, w: World, magic: bool)
  {
    (ReadyTrue(status) ==> Children(w, magic)) && (status.ready == "True" ==> w.prom.Some?)
  }

  /** A stored SLO or a copy: it has the fixed choice and a truthful status. */
  predicate Honest(slo: Slo, w: World, magic: bool)
  {
    WantsAlerting(slo) == magic && Truthful(slo.status, w, magic)
  }

  predicate Kept<S, T>(slot: Slot<S, T>)
  {
    slot.Some? ==> !slot.value.meta.deleting
  }

  predicate ChildrenKept(w: World)
  {
    Kept(w.prom) && Kept(w.rule) && Kept(w.alerting)
  }

  /** Past this position the MimirRule exists. */
  predicate PastRule(pc: Pc)
  {
    pc.OwnRule? || pc.ReadySlo? || pc.ReadyRule? || pc.GetAlerting?
    || pc.MakeAlerting? || pc.OwnAlerting? || pc.Conclude?
  }

  predicate SloHonest(pc: Pc, w: World, magic: bool)
  {
    && (!pc.GetSlo? && !pc.ReadyRule? && !pc.Stop? ==> Honest(pc.slo, w, magic))
    && (pc.OwnProm? || pc.MarkReady? ==> w.prom.Some?)
    && (pc.GetRule? ==> w.prom.Some? || pc.prom.meta.name == "")
    && (pc.MakeRule? ==> w.prom.Some? || pc.rule.meta.name == "")
    && (PastRule(pc) ==> w.rule.Some?)
    && (pc.OwnAlerting? ==> w.alerting.Some?)
    && (pc.Conclude? ==> Children(w, magic))
  }

  predicate PromHonest(pc: PromController.Pc, w: World, magic: bool)
  {
    pc.TouchPut? ==> Honest(pc.slo, w, magic)
  }

  predicate WorldHonest(w: World, magic: bool)
  {
    && ChildrenKept(w) && (w.rule.Some? ==> w.prom.Some?)
    && (w.slo.Some? ==> Honest(w.slo.value, w, magic))
  }

  predicate AllHonest(s: System, magic: bool)
  {
    WorldHonest(s.w, magic) && SloHonest(s.slo, s.w, magic) && PromHonest(s.prom, s.w, magic)
  }

  // ----- Children stay -----

  /** No child goes away, and none is marked for deletion. */
  predicate Grows(w: World, v: World)
  {
    && ChildrenKept(v)
    && (w.prom.Some? ==> v.prom.Some?) && (w.rule.Some? ==> v.rule.Some?) && (w.alerting.Some? ==> v.alerting.Some?)
  }

  lemma ReplaceKeeps<S, T>(slot: Slot<S, T>, o: Object<S, T>, clock: nat, f: Fault)
    requires Kept(slot)
    ensures var b := Attempt(slot, Replaced(slot, o, clock), f).slot; Kept(b) && (slot.Some? <==> b.Some?)
  {
    hide AddsFinalizer;
  }

  lemma StatusKeeps<S, T>(slot: Slot<S, T>, o: Object<S, T>, clock: nat, f: Fault)
    requires Kept(slot)
    ensures var b := Attempt(slot, StatusReplaced(slot, o, clock), f).slot; Kept(b) && (slot.Some? <==> b.Some?)
  {
  }

  lemma CreateKeeps<S, T>(slot: Slot<S, T>, o: Object<S, T>, clock: nat, f: Fault)
    requires Kept(slot)
    ensures var r := Attempt(slot, Created(slot, o, clock), f);
      && Kept(r.slot) && (slot.Some? || r.reply.Done? ==> r.slot.Some?)
      && (o.meta.name == "" ==> r.slot == slot)
  {
  }

  /** What growing keeps. */
  lemma Grown(slo: Slo, w: World, v: World, magic: bool)
    requires Grows(w, v)
    ensures Honest(slo, w, magic) ==> Honest(slo, v, magic)
    ensures Children(w, magic) ==> Children(v, magic)
    ensures (w.prom.Some? ==> v.prom.Some?) && (w.rule.Some? ==> v.rule.Some?)
    ensures (w.alerting.Some? ==> v.alerting.Some?)
  {
  }

  lemma PromWrites(w: World, o: PrometheusRule, f: Fault, magic: bool)
    requires WorldHonest(w, magic)
    ensures var (v, reply) := CreateProm(w, o, f);
      WorldHonest(v, magic) && Grows(w, v) && (reply.Done? ==> v.prom.Some?)
    ensures var v := PutProm(w, o, f).0; WorldHonest(v, magic) && Grows(w, v)
    ensures var v := PutPromStatus(w, o, f).0; WorldHonest(v, magic) && Grows(w, v)
  {
    hide Created, Replaced, StatusReplaced, WantsAlerting, ReadyTrue;
    CreateKeeps(w.prom, o, w.clock, f);
    ReplaceKeeps(w.prom, o, w.clock, f);
    StatusKeeps(w.prom, o, w.clock, f);
  }

  lemma RuleWrites(w: World, o: MimirRule, f: Fault, magic: bool)
    requires WorldHonest(w, magic)
    ensures w.prom.Some? || o.meta.name == "" ==>
      var (v, reply) := CreateRule(w, o, f);
      WorldHonest(v, magic) && Grows(w, v) && (reply.Done? ==> v.rule.Some?)
    ensures var v := PutRule(w, o, f).0; WorldHonest(v, magic) && Grows(w, v)
    ensures var v := PutRuleStatus(w, o, f).0; WorldHonest(v, magic) && Grows(w, v)
  {
    hide Created, Replaced, StatusReplaced, WantsAlerting, ReadyTrue;
    CreateKeeps(w.rule, o, w.clock, f);
    ReplaceKeeps(w.rule, o, w.clock, f);
    StatusKeeps(w.rule, o, w.clock, f);
  }

  lemma AlertingWrites(w: World, o: AlertManagerConfig, f: Fault, magic: bool)
    requires WorldHonest(w, magic)
    ensures var (v, reply) := CreateAlerting(w, o, f);
      WorldHonest(v, magic) && Grows(w, v) && (reply.Done? ==> v.alerting.Some?)
    ensures var v := PutAlerting(w, o, f).0; WorldHonest(v, magic) && Grows(w, v)
  {
    hide Created, Replaced, StatusReplaced, WantsAlerting, ReadyTrue;
    CreateKeeps(w.alerting, o, w.clock, f);
    ReplaceKeeps(w.alerting, o, w.clock, f);
  }

  /** A status write puts the given status or nothing. */
  lemma StatusHonest(w: World, o: Slo, f: Fault, magic: bool)
    requires WorldHonest(w, magic) && Truthful(o.status, w, magic)
    ensures var v := PutSloStatus(w, o, f).0; WorldHonest(v, magic) && Grows(w, v)
  {
    hide Find;
  }

  lemma WriteHonest(w: World, o: Slo, f: Fault, magic: bool)
    requires WorldHonest(w, magic) && WantsAlerting(o) == magic
    ensures var v := PutSlo(w, o, f).0; WorldHonest(v, magic) && Grows(w, v)
  {
    hide Find, AddsFinalizer, Get;
  }

  lemma ReadyWritten(w: World, slo: Slo, ready: string, f: Fault, magic: bool)
    requires WorldHonest(w, magic) && Honest(slo, w, magic) && (ready == "True" ==> w.prom.Some?)
    ensures var v := PutSloStatus(w, SloController.Ready(slo, ready), f).0; WorldHonest(v, magic) && Grows(w, v)
  {
    hide PutSloStatus, WorldHonest, Find;
    StatusHonest(w, SloController.Ready(slo, ready), f, magic);
  }

  lemma RuleHasProm(w: World, magic: bool)
    requires WorldHonest(w, magic)
    ensures w.rule.Some? ==> w.prom.Some?
  {
  }

  /** A MimirRule built from the empty object has no name, so it can never be created. */
  lemma NameTaken(slo: Slo, p: PrometheusRule, connection: Connection)
    ensures NewMimirRule(slo, p, connection).meta.name == p.meta.name
  {
    hide ToMimirGroups;
  }

  lemma CopyWritten(w: World, slo: Slo, f: Fault, magic: bool)
    requires WorldHonest(w, magic) && Honest(slo, w, magic)
    ensures var v := PutSloStatus(w, slo, f).0; WorldHonest(v, magic) && Grows(w, v)
  {
    hide PutSloStatus, WorldHonest, Truthful;
    StatusHonest(w, slo, f, magic);
  }

  lemma SliWrites(w: World, o: Sli, f: Fault, magic: bool)
    requires WorldHonest(w, magic)
    ensures var v := CreateSli(w, o, f).0; WorldHonest(v, magic) && Grows(w, v)
    ensures var v := PutSli(w, o, f).0; WorldHonest(v, magic) && Grows(w, v)
  {
    hide Created, Replaced;
  }

  lemma MarkedFalse(slo: Slo, message: string, now: int)
    ensures !ReadyTrue(WithReadyCondition(slo, "False", message, now).status)
    ensures WithReadyCondition(slo, "False", message, now).status.ready == "False"
  {
    hide Updated, Find;
    FindUpdated(slo.status.conditions, NewCondition("Ready", "False", message, now), now);
  }

  // ----- The SLO controller -----

  lemma FinalizingHonest(cfg: Config, pc: Pc, w: World, f: Fault, magic: bool)
    requires Finalizing(pc) && WorldHonest(w, magic) && SloHonest(pc, w, magic)
    ensures var (pc', v) := AdvanceFinalizing(cfg, pc, w, f);
      WorldHonest(v, magic) && Grows(w, v) && SloHonest(pc', v, magic)
  {
    hide Replaced, Created, StatusReplaced, Find, Updated, Get, NewAlerting, NewInlineSli, SloController.Owned,
      NewMimirRule, CreatePrometheusRule, PutSlo, WithFinalizer, WithoutFinalizer, ReadyTrue;
    match pc
    case Unfinalize(slo) => CopyMarked(w, slo, f, magic);
    case Finalize(slo) => CopyMarked(w, slo, f, magic);
    case _ =>
  }

  lemma CopyMarked(w: World, slo: Slo, f: Fault, magic: bool)
    requires WorldHonest(w, magic) && Honest(slo, w, magic)
    ensures var v := PutSlo(w, WithFinalizer(slo, SLO_FINALIZER), f).0; WorldHonest(v, magic) && Grows(w, v)
    ensures var v := PutSlo(w, WithoutFinalizer(slo, SLO_FINALIZER), f).0; WorldHonest(v, magic) && Grows(w, v)
  {
    hide PutSlo, Find, Get;
    WriteHonest(w, WithFinalizer(slo, SLO_FINALIZER), f, magic);
    WriteHonest(w, WithoutFinalizer(slo, SLO_FINALIZER), f, magic);
  }

  lemma ResolvingHonest(cfg: Config, pc: Pc, w: World, f: Fault, magic: bool)
    requires Resolving(pc) && WorldHonest(w, magic) && SloHonest(pc, w, magic)
    ensures var (pc', v) := AdvanceResolving(cfg, pc, w, f);
      WorldHonest(v, magic) && Grows(w, v) && SloHonest(pc', v, magic)
  {
    hide WorldHonest, Grows, Honest, NewAlerting, NewInlineSli, SloController.Owned, NewMimirRule,
      CreatePrometheusRule, PutSlo, PutSloStatus, CreateProm, PutProm, PutPromStatus, CreateRule, PutRule,
      PutRuleStatus, CreateAlerting, PutAlerting, CreateSli, PutSli, InlineName;
    var v := AdvanceResolving(cfg, pc, w, f).1;
    StaysHonest(w, magic);
    match pc {
      case SourceMissing(slo) => ReadyWritten(w, slo, "False", f, magic);
      case CreateInline(slo, _, i) => SliWrites(w, NewInlineSli(slo, i), f, magic);
      case UpdateInline(slo, _, i, sli) => SliWrites(w, sli.(spec := i.spec), f, magic);
      case _ =>
    }
    Grown(pc.slo, w, v, magic);
  }

  lemma MakingPromHonest(cfg: Config, pc: Pc, w: World, f: Fault, magic: bool)
    requires MakingProm(pc) && WorldHonest(w, magic) && SloHonest(pc, w, magic)
    ensures var (pc', v) := AdvanceMakingProm(cfg, pc, w, f);
      WorldHonest(v, magic) && Grows(w, v) && SloHonest(pc', v, magic)
  {
    hide WorldHonest, Grows, Honest, NewAlerting, NewInlineSli, SloController.Owned, NewMimirRule,
      CreatePrometheusRule, PutSlo, PutSloStatus, CreateProm, PutProm, PutPromStatus, CreateRule, PutRule,
      PutRuleStatus, CreateAlerting, PutAlerting, CreateSli, PutSli, InlineName;
    var v := AdvanceMakingProm(cfg, pc, w, f).1;
    StaysHonest(w, magic);
    match pc {
      case MakeProm(_, p) => PromWrites(w, p, f, magic);
      case PromFailed(_, p) => PromWrites(w, p, f, magic);
      case OwnProm(slo, p) => PromWrites(w, SloController.Owned(p, slo), f, magic);
      case MarkReady(slo) => ReadyWritten(w, slo, "True", f, magic);
      case _ =>
    }
    Grown(pc.slo, w, v, magic);
  }

  lemma MakingRuleHonest(cfg: Config, pc: Pc, w: World, f: Fault, magic: bool)
    requires MakingRule(pc) && WorldHonest(w, magic) && SloHonest(pc, w, magic)
    requires pc.GetRule? && w.rule.None? ==> f == Fine
    ensures var (pc', v) := AdvanceMakingRule(cfg, pc, w, f);
      WorldHonest(v, magic) && Grows(w, v) && SloHonest(pc', v, magic)
  {
    hide WorldHonest, Grows, Honest, NewAlerting, NewInlineSli, SloController.Owned, NewMimirRule,
      CreatePrometheusRule, PutSlo, PutSloStatus, CreateProm, PutProm, PutPromStatus, CreateRule, PutRule,
      PutRuleStatus, CreateAlerting, PutAlerting, CreateSli, PutSli, InlineName;
    var v := AdvanceMakingRule(cfg, pc, w, f).1;
    StaysHonest(w, magic);
    RuleHasProm(w, magic);
    match pc {
      case GetRule(slo, ds, p) => NameTaken(slo, p, ds.spec);
      case MakeRule(_, m) => RuleWrites(w, m, f, magic);
      case RuleFailed(slo) => CopyWritten(w, slo, f, magic);
      case OwnRule(slo, m) => RuleWrites(w, SloController.Owned(m, slo), f, magic);
      case ReadySlo(slo, _) => ReadyWritten(w, slo, "True", f, magic);
      case ReadyRule(m) => RuleWrites(w, m.(status := "True"), f, magic);
      case _ =>
    }
    if !pc.ReadyRule? {
      Grown(pc.slo, w, v, magic);
    }
  }

  lemma ConcludingHonest(cfg: Config, pc: Pc, w: World, f: Fault, magic: bool)
    requires Concluding(pc) && WorldHonest(w, magic) && SloHonest(pc, w, magic)
    ensures var (pc', v) := AdvanceConcluding(cfg, pc, w, f);
      WorldHonest(v, magic) && Grows(w, v) && SloHonest(pc', v, magic)
  {
    hide WorldHonest, Grows, Honest, NewAlerting, NewInlineSli, SloController.Owned, NewMimirRule,
      CreatePrometheusRule, PutSlo, PutSloStatus, CreateProm, PutProm, PutPromStatus, CreateRule, PutRule,
      PutRuleStatus, CreateAlerting, PutAlerting, CreateSli, PutSli, InlineName, WithReadyCondition;
    var v := AdvanceConcluding(cfg, pc, w, f).1;
    StaysHonest(w, magic);
    RuleHasProm(w, magic);
    match pc {
      case MakeAlerting(slo) => AlertingWrites(w, NewAlerting(slo), f, magic);
      case OwnAlerting(slo, a) => AlertingWrites(w, SloController.Owned(a, slo), f, magic);
      case MarkFalse(slo, message, _) =>
        MarkedFalse(slo, message, w.now);
        StatusHonest(w, WithReadyCondition(slo, "False", message, w.now), f, magic);
      case Conclude(slo) => StatusHonest(w, WithReadyCondition(slo, "True", "PrometheusRule created", w.now), f, magic);
      case _ =>
    }
    Grown(pc.slo, w, v, magic);
  }

  lemma SloCallHonest(cfg: Config, pc: Pc, w: World, f: Fault, magic: bool)
    requires WorldHonest(w, magic) && SloHonest(pc, w, magic) && (pc.GetRule? && w.rule.None? ==> f == Fine)
    ensures var (pc', v) := Advance(cfg, pc, w, f);
      WorldHonest(v, magic) && Grows(w, v) && SloHonest(pc', v, magic)
  {
    hide WorldHonest, Grows, SloHonest, AdvanceFinalizing, AdvanceResolving, AdvanceMakingProm, AdvanceMakingRule,
      AdvanceConcluding;
    StaysHonest(w, magic);
    if Finalizing(pc) {
      FinalizingHonest(cfg, pc, w, f, magic);
    } else if Resolving(pc) {
      ResolvingHonest(cfg, pc, w, f, magic);
    } else if MakingProm(pc) {
      MakingPromHonest(cfg, pc, w, f, magic);
    } else if MakingRule(pc) {
      MakingRuleHonest(cfg, pc, w, f, magic);
    } else if Concluding(pc) {
      ConcludingHonest(cfg, pc, w, f, magic);
    }
  }

  lemma StaysHonest(w: World, magic: bool)
    requires WorldHonest(w, magic)
    ensures Grows(w, w)
  {
  }

  // ----- The other controllers and users -----

  lemma PromCallHonest(cfg: Config, pc: PromController.Pc, w: World, f: Fault, magic: bool)
    requires WorldHonest(w, magic) && PromHonest(pc, w, magic)
    ensures var (pc', v) := PromController.Advance(cfg, pc, w, f);
      WorldHonest(v, magic) && Grows(w, v) && PromHonest(pc', v, magic)
  {
    hide Grows, PutSloStatus, PutProm, PromController.WithReady, CreatePrometheusRule, PromController.InlineSli,
      ReadyTrue, WantsAlerting, ChildrenKept, PromController.SloRef;
    StaysHonest(w, magic);
    match pc
    case SliMissing(slo) =>
      MissingMarked(slo, w.now);
      StatusHonest(w, PromController.WithReady(slo, w.now), f, magic);
    case NoIndicator(slo) =>
      MissingMarked(slo, w.now);
      StatusHonest(w, PromController.WithReady(slo, w.now), f, magic);
    case OverwritePut(derived, _, p, _) =>
      PromWrites(w, derived.(meta := derived.meta.(version := p.meta.version)), f, magic);
    case TouchPut(_, slo, _, _) => StatusHonest(w, slo, f, magic);
    case _ =>
  }

  lemma MissingMarked(slo: Slo, now: int)
    ensures !ReadyTrue(PromController.WithReady(slo, now).status)
    ensures PromController.WithReady(slo, now).status.ready == "False"
  {
    hide Updated, Find;
    FindUpdated(slo.status.conditions, NewCondition("Ready", "False", "SLI Object not found", now), now);
  }

  lemma RuleCallHonest(cfg: Config, pc: MimirController.Pc, w: World, f: Fault, magic: bool)
    requires WorldHonest(w, magic)
    ensures var v := MimirController.Advance(cfg, pc, w, f).1; WorldHonest(v, magic) && Grows(w, v)
  {
    hide WorldHonest, Grows, PutProm, PutRule, PutRuleStatus, MimirController.Examine, MimirController.AfterOwners,
      MimirController.AfterPushing, MimirController.AfterRuleGuard, MimirController.AfterGuards, WithFinalizer,
      WithoutFinalizer;
    StaysHonest(w, magic);
    match pc
    case Deleting(_, _, names) => RulerAside(w, MimirController.Advance(cfg, pc, w, f).1, magic);
    case Pushing(_, _, _, pushes) => RulerAside(w, MimirController.Advance(cfg, pc, w, f).1, magic);
    case ReleaseRulePut(_, m, _) => RuleWrites(w, WithoutFinalizer(m, MimirController.RULE_FINALIZER), f, magic);
    case ReleasePromPut(p, _) => PromWrites(w, WithoutFinalizer(p, MimirController.PROM_FINALIZER), f, magic);
    case GuardRulePut(_, _, m, _) => RuleWrites(w, WithFinalizer(m, MimirController.RULE_FINALIZER), f, magic);
    case GuardPromPut(_, _, p, _) => PromWrites(w, WithFinalizer(p, MimirController.PROM_FINALIZER), f, magic);
    case OverwritePut(derived, m, _) =>
      RuleWrites(w, derived.(meta := derived.meta.(version := m.meta.version)), f, magic);
    case MarkFailed(m) => RuleWrites(w, m.(status := "False"), f, magic);
    case MarkReadyPut(m, _) => RuleWrites(w, m.(status := "True"), f, magic);
    case _ =>
  }

  lemma RulerAside(w: World, v: World, magic: bool)
    requires WorldHonest(w, magic) && v == w.(ruler := v.ruler)
    ensures WorldHonest(v, magic) && Grows(w, v)
  {
  }

  lemma NewNotReady(key: Key, labels: Labels, annotations: Labels, spec: SloSpec)
    ensures !ReadyTrue(NewSlo(key, labels, annotations, spec).status)
    ensures NewSlo(key, labels, annotations, spec).status.ready == ""
  {
  }

  lemma UserHonest(key: Key, s: System, a: Action, magic: bool)
    requires WorldHonest(s.w, magic) && Allowed(magic, s, User(a))
    ensures var v := Act(key, s.w, a); WorldHonest(v, magic) && Grows(s.w, v)
  {
    hide Replaced, Find, Get;
    var w := s.w;
    match a
    case CreateSlo(labels, annotations, spec) => NewNotReady(key, labels, annotations, spec);
    case EditSlo(labels, annotations, spec) =>
      if w.slo.Some? {
        var o := w.slo.value;
        WriteHonest(w, o.(meta := o.meta.(labels := labels, annotations := annotations), spec := spec), Fine, magic);
      }
    case _ =>
  }

  // ----- Runs -----

  lemma PcLater(pc: Pc, prom: PromController.Pc, w: World, v: World, magic: bool)
    requires SloHonest(pc, w, magic) && PromHonest(prom, w, magic) && Grows(w, v)
    ensures SloHonest(pc, v, magic) && PromHonest(prom, v, magic)
  {
    hide Grows, Children, Honest;
    Grown(NO_SLO, w, v, magic);
    if !pc.GetSlo? && !pc.ReadyRule? && !pc.Stop? {
      Grown(pc.slo, w, v, magic);
    }
    if prom.TouchPut? {
      Grown(prom.slo, w, v, magic);
    }
  }

  lemma StepHonest(cfg: Config, key: Key, s: System, e: Event, magic: bool)
    requires AllHonest(s, magic) && Allowed(magic, s, e)
    ensures AllHonest(Step(cfg, key, s, e), magic)
  {
    hide WorldHonest, SloHonest, PromHonest, Grows, SloController.Advance, PromController.Advance,
      MimirController.Advance, Act;
    var w := Step(cfg, key, s, e).w;
    match e
    case Call(SloCtl, f) =>
      SloCallHonest(cfg, s.slo, s.w, f, magic);
      PcLater(SloController.GetSlo, s.prom, s.w, w, magic) by { StartHonest(s.w, magic); }
    case Call(PromCtl, f) =>
      PromCallHonest(cfg, s.prom, s.w, f, magic);
      PcLater(s.slo, PromController.GetProm, s.w, w, magic) by { StartHonest(s.w, magic); }
    case Call(RuleCtl, f) =>
      RuleCallHonest(cfg, s.rule, s.w, f, magic);
      PcLater(s.slo, s.prom, s.w, w, magic);
    case User(a) =>
      UserHonest(key, s, a, magic);
      PcLater(s.slo, s.prom, s.w, w, magic);
    case Start(_) => StartHonest(s.w, magic);
    case Crash(_) => StartHonest(s.w, magic);
  }

  lemma StartHonest(w: World, magic: bool)
    ensures SloHonest(SloController.GetSlo, w, magic) && PromHonest(PromController.GetProm, w, magic)
    ensures forall o :: SloHonest(SloController.Stop(o), w, magic) && PromHonest(PromController.Stop(o), w, magic)
  {
  }

  ghost predicate AllowedRun(cfg: Config, key: Key, s: System, events: seq<Event>, magic: bool)
  {
    forall i | 0 <= i < |events| :: Allowed(magic, Run(cfg, key, s, events[..i]), events[i])
  }

  lemma {:induction false} RunHonest(cfg: Config, key: Key, s: System, events: seq<Event>, magic: bool)
    requires Initial(s) && AllowedRun(cfg, key, s, events, magic)
    ensures AllHonest(Run(cfg, key, s, events), magic)
  {
    hide Step, Allowed;
    if events != [] {
      var n := |events| - 1;
      var before := events[..n];
      forall i | 0 <= i < n
        ensures Allowed(magic, Run(cfg, key, s, before[..i]), before[i])
      {
        assert before[..i] == events[..i];
      }
      RunHonest(cfg, key, s, before, magic);
      StepHonest(cfg, key, Run(cfg, key, s, before), events[n], magic);
    }
  }

  /**
   With writes failing and controllers crashing anywhere, a True Ready condition means the children exist, and
   a Ready text of True means the PrometheusRule does.
   */
  lemma ReadyMeansChildren(cfg: Config, key: Key, s: System, events: seq<Event>, magic: bool)
    requires Initial(s) && AllowedRun(cfg, key, s, events, magic)
    ensures var w := Run(cfg, key, s, events).w;
      w.slo.Some? && ReadyTrue(w.slo.value.status) ==>
        w.prom.Some? && w.rule.Some? && (WantsAlerting(w.slo.value) ==> w.alerting.Some?)
    ensures var w := Run(cfg, key, s, events).w;
      w.slo.Some? && w.slo.value.status.ready == "True" ==> w.prom.Some?
  {
    hide Run, Initial, AllowedRun, ReadyTrue, WantsAlerting, SloHonest, PromHonest, ChildrenKept;
    RunHonest(cfg, key, s, events, magic);
  }

  // ----- The condition cannot be dropped -----

  /** Calls without faults keep everything honest to the end of the pass. */
  lemma {:induction false} CalmHonest(cfg: Config, pc: Pc, w: World, magic: bool)
    requires WorldHonest(w, magic) && SloHonest(pc, w, magic)
    ensures WorldHonest(SloConvergence.Run(cfg, pc, w).1, magic)
    decreases Stage(pc)
  {
    hide Advance, WorldHonest, SloHonest, Stage;
    if !pc.Stop? {
      AdvanceProgresses(cfg, pc, w, Fine);
      SloCallHonest(cfg, pc, w, Fine, magic);
      CalmHonest(cfg, Advance(cfg, pc, w, Fine).0, Advance(cfg, pc, w, Fine).1, magic);
    }
  }

  /** In this world a True Ready condition means that the children exist. */
  predicate ReadySound(w: World, magic: bool)
  {
    w.slo.Some? && ReadyTrue(w.slo.value.status) ==> Children(w, magic)
  }

  /**
   A look for the MimirRule that fails otherwise than by NotFound is taken for success.  From an honest state,
   the rest of the pass without faults: at its end Ready means that the children exist exactly when the look
   did not fail or there was a MimirRule to find.
   */
  lemma FailedLookIsReadyIff(cfg: Config, w: World, pc: Pc, f: Fault, magic: bool)
    requires pc.GetRule? && WorldHonest(w, magic) && SloHonest(pc, w, magic)
    requires w.slo == Some(pc.slo) && !pc.slo.meta.deleting
    ensures var (pc', v) := Advance(cfg, pc, w, f);
      ReadySound(SloConvergence.Run(cfg, pc', v).1, magic) <==> f == Fine || w.rule.Some?
  {
    hide WorldHonest, SloHonest, ReadyTrue, SloConvergence.Run, SloConvergence.ConcludedStatus, AfterRule,
      NewMimirRule, WantsAlerting;
    var (pc', v) := Advance(cfg, pc, w, f);
    if f == Fine || w.rule.Some? {
      SloCallHonest(cfg, pc, w, f, magic);
      CalmHonest(cfg, pc', v, magic);
      HonestIsSound(SloConvergence.Run(cfg, pc', v).1, magic);
    } else {
      assert pc' == AfterRule(pc.slo) && v == w;
      var end := SloConvergence.RunConclude(cfg, w, pc.slo);
      SloConvergence.ConcludedReady(pc.slo.status, w.now);
    }
  }

  lemma HonestIsSound(w: World, magic: bool)
    requires WorldHonest(w, magic)
    ensures ReadySound(w, magic)
  {
    hide ReadyTrue, WantsAlerting;
  }

  /** The Ready text promises the PrometheusRule only: a pass that creates it says True before there is a MimirRule. */
  lemma TextBeforeRule(cfg: Config, w: World)
    requires SloConvergence.Live(cfg, w) && SLO_FINALIZER in w.slo.value.meta.finalizers
    requires w.prom.None? && w.rule.None?
    ensures var v := SloConvergence.Run(cfg, GetSlo, w).1;
      v.slo.Some? && v.slo.value.status.ready == "True" && v.prom.Some? && v.rule.None?
  {
    hide SloConvergence.Live, SloConvergence.Run, RuleGroups;
    SloConvergence.PromPass(cfg, w);
  }
}
