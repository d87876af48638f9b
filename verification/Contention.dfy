/**
 The MimirRule controller among other writers: its passes end without an error although others edit its two
 objects up to four times while it works, and they give up on an object that changes under every attempt.
 And how its failure-free passes end when something they need is not there.
 */
module Contention {
  import opened Text
  import opened Api
  import opened RuleCompiler
  import opened MimirTranslation
  import opened ObjectStore
  import opened Cluster
  import opened MimirController
  import MimirConvergence

  // ----- What others do -----

  /** Someone else wrote labels or annotations. */
  predicate Relabelled<S(==), T(==)>(a: Slot<S, T>, b: Slot<S, T>)
  {
    match a
    case None => b.None?
    case Some(o) =>
      && b.Some?
      && b.value == o.(meta := o.meta.(labels := b.value.meta.labels, annotations := b.value.meta.annotations,
                                       version := b.value.meta.version))
  }

  predicate Edited(w: World, v: World)
  {
    && v == w.(prom := v.prom, rule := v.rule, clock := v.clock)
    && Relabelled(w.prom, v.prom) && Relabelled(w.rule, v.rule)
  }

  /** No call fails, and others edit the two objects only before these calls. */
  ghost predicate EditsOnly(env: Environment, t: nat, edits: set<nat>)
  {
    && (forall k :: env.fault(k) == Fine)
    && (forall k: nat, v | k in edits :: Edited(v, env.disturb(k, v)))
    && (forall k: nat, v | k >= t && k !in edits :: env.disturb(k, v) == v)
  }

  // ----- Positions with attempts to spare -----

  /** Every SLO among the owners is the one there is. */
  predicate OwnersFound(w: World, refs: seq<OwnerRef>)
  {
    forall r | r in refs && r.kind == "SLO" :: w.slo.Some? && w.slo.value.meta.name == r.name
  }

  /** Nothing but edits can get in the way of a pass. */
  predicate Unhindered(cfg: Config, w: World)
  {
    w.prom.Some? && w.rule.Some? ==>
      && cfg.validAddress(w.rule.value.spec.connection.address)
      && (!w.rule.value.meta.deleting ==>
            !w.prom.value.meta.deleting && OwnersFound(w, w.rule.value.meta.owners))
  }

  predicate BothLive(w: World)
  {
    w.prom.Some? && !w.prom.value.meta.deleting && w.rule.Some? && !w.rule.value.meta.deleting
  }

  /** A copy under the stored version, with the stored finalizers. */
  predicate Fresh<S, T>(o: Object<S, T>, slot: Slot<S, T>)
  {
    slot.Some? && o.meta.version == slot.value.meta.version && o.meta.finalizers == slot.value.meta.finalizers
  }

  /** More attempts are left than edits to come, and what is needed is there. */
  predicate Hopeful(cfg: Config, pc: Pc, w: World, edits: nat)
  {
    match pc
    case GetProm => Unhindered(cfg, w)
    case GetRule(_) => w.prom.Some? && Unhindered(cfg, w)
    case Deleting(_, _, _) => w.prom.Some? && w.rule.Some?
    case ReleaseRuleGet(_, tries) => w.prom.Some? && w.rule.Some? && tries > edits
    case ReleaseRulePut(_, m, tries) => w.prom.Some? && Fresh(m, w.rule) && tries > edits
    case ReleasePromGet(tries) => w.prom.Some? && tries > edits
    case ReleasePromPut(p, tries) => Fresh(p, w.prom) && tries > edits
    case GetOwner(_, _, refs) => BothLive(w) && OwnersFound(w, refs) && forall r | r in refs :: r.kind == "SLO"
    case Pushing(_, _, _, _) => BothLive(w)
    case GuardRuleGet(_, _, tries) => BothLive(w) && tries > edits
    case GuardRulePut(_, _, m, tries) => BothLive(w) && Fresh(m, w.rule) && tries > edits
    case GuardPromGet(_, _, tries) => BothLive(w) && tries > edits
    case GuardPromPut(_, _, p, tries) => BothLive(w) && Fresh(p, w.prom) && tries > edits
    case OverwriteGet(_, _, tries) => BothLive(w) && tries > edits
    case OverwritePut(_, m, tries) => BothLive(w) && Fresh(m, w.rule) && tries > edits
    case MarkReadyGet(tries) => BothLive(w) && tries > edits
    case MarkReadyPut(m, tries) => BothLive(w) && Fresh(m, w.rule) && tries > edits
    case MarkFailed(_) => false
    case Stop(outcome) => !outcome.Failed?
  }

  /** The world a call meets: as it was, or after one of the edits. */
  predicate Met(w: World, v: World, before: nat, after: nat)
  {
    (v == w && after == before) || (Edited(w, v) && after + 1 == before)
  }

  lemma {:induction false} SloRefsAre(refs: seq<OwnerRef>)
    ensures forall r | r in SloRefs(refs) :: r in refs && r.kind == "SLO"
  {
    if refs != [] {
      SloRefsAre(refs[1..]);
    }
  }

  /** Writing a live object succeeds unless its version has moved on. */
  lemma LiveRuleWrite(w: World, m: MimirRule)
    requires BothLive(w)
    ensures var (v, r) := PutRule(w, m, Fine);
      BothLive(v) && (r.Done? || r.Conflict?) && (m.meta.version == w.rule.value.meta.version ==> r.Done?)
  {
    hide AddsFinalizer;
  }

  lemma LivePromWrite(w: World, p: PrometheusRule)
    requires BothLive(w)
    ensures var (v, r) := PutProm(w, p, Fine);
      BothLive(v) && (r.Done? || r.Conflict?) && (p.meta.version == w.prom.value.meta.version ==> r.Done?)
  {
    hide AddsFinalizer;
  }

  /** So does taking a finalizer off, whether or not the object is being deleted. */
  lemma ReleaseRuleWrite(w: World, m: MimirRule)
    ensures var (v, r) := PutRule(w, WithoutFinalizer(m, RULE_FINALIZER), Fine);
      && v.prom == w.prom
      && (w.rule.Some? && m.meta.version != w.rule.value.meta.version ==> r.Conflict? && v.rule == w.rule)
      && (Fresh(m, w.rule) ==> r.Done?)
  {
    hide Remove;
    RemoveKeeps(m.meta.finalizers, RULE_FINALIZER);
  }

  lemma ReleasePromWrite(w: World, p: PrometheusRule)
    ensures var (v, r) := PutProm(w, WithoutFinalizer(p, PROM_FINALIZER), Fine);
      && (w.prom.Some? && p.meta.version != w.prom.value.meta.version ==> r.Conflict? && v.prom == w.prom)
      && (Fresh(p, w.prom) ==> r.Done?)
  {
    hide Remove;
    RemoveKeeps(p.meta.finalizers, PROM_FINALIZER);
  }

  /** Local work keeps up hope. */
  lemma LocalHopeful(cfg: Config, p: PrometheusRule, m: MimirRule, slo: Slo, w: World, edits: nat)
    requires BothLive(w) && edits <= 4
    ensures forall pushes :: Hopeful(cfg, AfterPushing(p, m, slo, pushes), w, edits)
    ensures Hopeful(cfg, AfterOwners(cfg, p, m, slo), w, edits)
    ensures Hopeful(cfg, AfterRuleGuard(p, m, slo), w, edits) && Hopeful(cfg, AfterGuards(p, m, slo), w, edits)
  {
    hide ToMimirGroups, Pushes, NewMimirRule;
  }

  lemma ReleaseHopeful(cfg: Config, p: PrometheusRule, m: MimirRule, names: seq<string>, w: World, edits: nat)
    requires w.prom.Some? && edits <= 4
    ensures w.rule.Some? ==> Hopeful(cfg, AfterDeleting(p, m, names), w, edits)
    ensures Hopeful(cfg, AfterRelease(p), w, edits)
  {
  }

  lemma ExamineHopeful(cfg: Config, p: PrometheusRule, m: MimirRule, w: World, edits: nat)
    requires w.rule == Some(m) && w.prom.Some? && Unhindered(cfg, w) && edits <= 4
    ensures Hopeful(cfg, Examine(cfg, p, m), w, edits)
  {
    hide ToMimirGroups, Names, SloRefs, AfterOwners, AfterDeleting;
    SloRefsAre(m.meta.owners);
    ReleaseHopeful(cfg, p, m, Names(ToMimirGroups(p.spec, m.spec.connection)), w, edits);
    if BothLive(w) {
      LocalHopeful(cfg, p, m, NO_SLO, w, edits);
    }
  }

  lemma ReadingHopeful(cfg: Config, pc: Pc, w: World, v: World, before: nat, after: nat)
    requires Reading(pc) && Hopeful(cfg, pc, w, before) && Met(w, v, before, after) && before <= 4
    ensures var (pc', u) := AdvanceReading(cfg, pc, v, Fine); Hopeful(cfg, pc', u, after)
  {
    hide Examine, AfterOwners;
    match pc
    case GetRule(p) =>
      if v.rule.Some? {
        ExamineHopeful(cfg, p, v.rule.value, v, after);
      }
    case GetOwner(p, m, _) =>
      LocalHopeful(cfg, p, m, NO_SLO, v, after);
      if v.slo.Some? {
        LocalHopeful(cfg, p, m, v.slo.value, v, after);
      }
    case _ =>
  }

  lemma ReleasingHopeful(cfg: Config, pc: Pc, w: World, v: World, before: nat, after: nat)
    requires Releasing(pc) && Hopeful(cfg, pc, w, before) && Met(w, v, before, after) && before <= 4
    ensures var (pc', u) := AdvanceReleasing(cfg, pc, v, Fine); Hopeful(cfg, pc', u, after)
  {
    hide WithoutFinalizer, PutRule, PutProm, Unhindered, AfterDeleting, AfterRelease;
    match pc
    case Deleting(p, m, names) =>
      ReleaseHopeful(cfg, p, m, if names == [] then [] else names[1..], AdvanceReleasing(cfg, pc, v, Fine).1, after);
    case ReleaseRulePut(p, m, _) =>
      ReleaseRuleWrite(v, m);
      ReleaseHopeful(cfg, p, m, [], AdvanceReleasing(cfg, pc, v, Fine).1, after);
    case ReleasePromPut(p, _) => ReleasePromWrite(v, p);
    case _ =>
  }

  lemma GuardingHopeful(cfg: Config, pc: Pc, w: World, v: World, before: nat, after: nat)
    requires Guarding(pc) && Hopeful(cfg, pc, w, before) && Met(w, v, before, after) && before <= 4
    ensures var (pc', u) := AdvanceGuarding(cfg, pc, v, Fine); Hopeful(cfg, pc', u, after)
  {
    hide AfterPushing, AfterRuleGuard, AfterGuards, PutRule, PutProm, Unhindered;
    match pc
    case Pushing(p, m, slo, _) => LocalHopeful(cfg, p, m, slo, AdvanceGuarding(cfg, pc, v, Fine).1, after);
    case GuardRuleGet(p, slo, _) => LocalHopeful(cfg, p, v.rule.value, slo, v, after);
    case GuardRulePut(p, slo, m, _) =>
      LiveRuleWrite(v, WithFinalizer(m, RULE_FINALIZER));
      var (u, r) := PutRule(v, WithFinalizer(m, RULE_FINALIZER), Fine);
      if r.Done? {
        LocalHopeful(cfg, p, r.obj, slo, u, after);
      }
    case GuardPromGet(m, slo, _) => LocalHopeful(cfg, v.prom.value, m, slo, v, after);
    case GuardPromPut(m, slo, p, _) =>
      LivePromWrite(v, WithFinalizer(p, PROM_FINALIZER));
      var (u, r) := PutProm(v, WithFinalizer(p, PROM_FINALIZER), Fine);
      if r.Done? {
        LocalHopeful(cfg, r.obj, m, slo, u, after);
      }
  }

  lemma OverwritingHopeful(cfg: Config, pc: Pc, w: World, v: World, before: nat, after: nat)
    requires Overwriting(pc) && Hopeful(cfg, pc, w, before) && Met(w, v, before, after) && before <= 4
    ensures var (pc', u) := AdvanceOverwriting(cfg, pc, v, Fine); Hopeful(cfg, pc', u, after)
  {
    hide AddsFinalizer, Unhindered;
  }

  lemma StepHopeful(cfg: Config, pc: Pc, w: World, v: World, before: nat, after: nat)
    requires Hopeful(cfg, pc, w, before) && Met(w, v, before, after) && before <= 4
    ensures var (pc', u) := Advance(cfg, pc, v, Fine); Hopeful(cfg, pc', u, after)
  {
    hide AdvanceReading, AdvanceReleasing, AdvanceGuarding, AdvanceOverwriting, Met, Unhindered;
    if Reading(pc) {
      ReadingHopeful(cfg, pc, w, v, before, after);
    } else if Releasing(pc) {
      ReleasingHopeful(cfg, pc, w, v, before, after);
    } else if Guarding(pc) {
      GuardingHopeful(cfg, pc, w, v, before, after);
    } else if Overwriting(pc) {
      OverwritingHopeful(cfg, pc, w, v, before, after);
    }
  }

  lemma {:induction false} HopefulPass(cfg: Config, pc: Pc, w: World, env: Environment, t: nat, edits: set<nat>)
    requires Hopeful(cfg, pc, w, |edits|) && |edits| <= 4 && EditsOnly(env, t, edits)
    ensures !Pass(cfg, pc, w, env, t).outcome.Failed?
    decreases Stage(pc), Count(pc)
  {
    hide Advance, Hopeful, Edited;
    if pc.Stop? {
      StoppedWell(cfg, pc, w, |edits|);
    } else {
      var v := env.disturb(t, w);
      AdvanceProgresses(cfg, pc, v, Fine);
      assert t !in edits ==> edits - {t} == edits;
      StepHopeful(cfg, pc, w, v, |edits|, |edits - {t}|);
      HopefulPass(cfg, Advance(cfg, pc, v, Fine).0, Advance(cfg, pc, v, Fine).1, env, t + 1, edits - {t});
    }
  }

  lemma StoppedWell(cfg: Config, pc: Pc, w: World, edits: nat)
    requires pc.Stop? && Hopeful(cfg, pc, w, edits)
    ensures !pc.outcome.Failed?
  {
  }

  /**
   With everything there that it needs, a pass ends without an error however others relabel the PrometheusRule
   and the MimirRule before up to four of its calls, be it to bring Mimir up to date or to clean up.
   */
  lemma FourEditsSurvived(cfg: Config, w: World, env: Environment, t: nat, edits: set<nat>)
    requires Unhindered(cfg, w) && EditsOnly(env, t, edits) && |edits| <= 4
    ensures !Pass(cfg, GetProm, w, env, t).outcome.Failed?
  {
    hide Pass, EditsOnly, Unhindered;
    HopefulPass(cfg, GetProm, w, env, t, edits);
  }

  // ----- The limit -----

  /** Others relabel the MimirRule before every call. */
  function Busy(w: World): World
  {
    match w.rule
    case None => w
    case Some(m) => w.(rule := Some(m.(meta := m.meta.(version := w.clock + 1))), clock := w.clock + 1)
  }

  ghost predicate AlwaysBusy(env: Environment)
  {
    (forall k :: env.fault(k) == Fine) && forall k, v :: env.disturb(k, v) == Busy(v)
  }

  function BusyFor(w: World, n: nat): World
    decreases n
  {
    if n == 0 then w else BusyFor(Busy(w), n - 1)
  }

  lemma AttemptUsedUp(cfg: Config, p: PrometheusRule, slo: Slo, tries: nat, w: World, env: Environment, t: nat)
    requires AlwaysBusy(env) && tries > 0 && w.rule.Some? && RULE_FINALIZER !in w.rule.value.meta.finalizers
    ensures Pass(cfg, GuardRuleGet(p, slo, tries), w, env, t)
         == Pass(cfg, Again(tries, true, GuardRuleGet(p, slo, tries - 1), RETRY), Busy(Busy(w)), env, t + 2)
  {
    hide PutRule, WithFinalizer;
    var m, v := Busy(w).rule.value, Busy(Busy(w));
    assert env.disturb(t, w) == Busy(w) && env.disturb(t + 1, Busy(w)) == v;
    assert Pass(cfg, GuardRuleGet(p, slo, tries), w, env, t)
        == Pass(cfg, GuardRulePut(p, slo, m, tries), Busy(w), env, t + 1);
    BusyConflict(w, m);
  }

  /** Each attempt to put the finalizer on meets a newer version, until none is left. */
  lemma {:induction false} AttemptsUsedUp(
    cfg: Config, p: PrometheusRule, slo: Slo, tries: nat, w: World, env: Environment, t: nat)
    requires AlwaysBusy(env) && tries > 0 && w.rule.Some? && RULE_FINALIZER !in w.rule.value.meta.finalizers
    ensures Pass(cfg, GuardRuleGet(p, slo, tries), w, env, t)
         == PassEnd(Failed(Transient), BusyFor(w, 2 * tries), t + 2 * tries)
    decreases tries
  {
    hide Advance;
    AttemptUsedUp(cfg, p, slo, tries, w, env, t);
    assert BusyFor(w, 2 * tries) == BusyFor(Busy(Busy(w)), 2 * (tries - 1));
    if tries > 1 {
      AttemptsUsedUp(cfg, p, slo, tries - 1, Busy(Busy(w)), env, t + 2);
    }
  }

  lemma BusyConflict(w: World, m: MimirRule)
    requires w.rule.Some? && Busy(w).rule == Some(m)
    ensures PutRule(Busy(Busy(w)), WithFinalizer(m, RULE_FINALIZER), Fine) == (Busy(Busy(w)), Conflict)
  {
  }

  /** An object that changes under every attempt: five attempts, ten calls, an error, and no finalizer. */
  lemma FifthEditDefeats(cfg: Config, p: PrometheusRule, slo: Slo, m: MimirRule, w: World, env: Environment, t: nat)
    requires AlwaysBusy(env) && w.rule == Some(m) && RULE_FINALIZER !in m.meta.finalizers
    ensures Pass(cfg, AfterPushing(p, m, slo, []), w, env, t)
         == PassEnd(Failed(Transient), BusyFor(w, 10), t + 10)
  {
    AttemptsUsedUp(cfg, p, slo, 5, w, env, t);
  }

  // ----- Passes cut short -----

  /** A PrometheusRule without a MimirRule of its name, or none at all, is nobody's business. */
  lemma NothingToTranslate(cfg: Config, w: World)
    requires w.prom.None? || w.rule.None?
    ensures MimirConvergence.Run(cfg, GetProm, w) == (Settled, w)
  {
    hide Examine;
    assert w.prom.Some? ==>
      MimirConvergence.Run(cfg, GetProm, w) == MimirConvergence.Run(cfg, GetRule(w.prom.value), w);
  }

  lemma {:induction false} OwnerMissing(
    cfg: Config, w: World, p: PrometheusRule, m: MimirRule, refs: seq<OwnerRef>, r: OwnerRef)
    requires r in refs && (w.slo.Some? ==> w.slo.value.meta.name != r.name)
    ensures MimirConvergence.Run(cfg, GetOwner(p, m, refs), w) == (Failed(Transient), w)
    decreases |refs|
  {
    hide AfterOwners;
    var found := w.slo.Some? && w.slo.value.meta.name == refs[0].name;
    assert MimirConvergence.Run(cfg, GetOwner(p, m, refs), w)
        == if found then MimirConvergence.Run(cfg, GetOwner(p, m, refs[1..]), w) else (Failed(Transient), w);
    if found {
      assert refs == [refs[0]] + refs[1..];
      OwnerMissing(cfg, w, p, m, refs[1..], r);
    }
  }

  lemma {:induction false} SloRefKept(refs: seq<OwnerRef>, r: OwnerRef)
    requires r in refs && r.kind == "SLO"
    ensures r in SloRefs(refs)
  {
    if refs[0] != r {
      SloRefKept(refs[1..], r);
    }
  }

  /**
   An unusable address, or a MimirRule not being deleted with an SLO among its owners that is not there: the
   pass ends in an error and has written nothing, not even to Mimir.
   */
  lemma UnusableLeftAlone(cfg: Config, w: World)
    requires w.prom.Some? && w.rule.Some?
    requires
      || !cfg.validAddress(w.rule.value.spec.connection.address)
      || (!w.rule.value.meta.deleting && !OwnersFound(w, w.rule.value.meta.owners))
    ensures MimirConvergence.Run(cfg, GetProm, w) == (Failed(Transient), w)
  {
    hide AfterOwners, SloRefs, AfterDeleting;
    var p, m := w.prom.value, w.rule.value;
    assert MimirConvergence.Run(cfg, GetProm, w) == MimirConvergence.Run(cfg, GetRule(p), w);
    assert MimirConvergence.Run(cfg, GetRule(p), w) == MimirConvergence.Run(cfg, Examine(cfg, p, m), w);
    if cfg.validAddress(m.spec.connection.address) {
      var r :| r in m.meta.owners && r.kind == "SLO" && (w.slo.Some? ==> w.slo.value.meta.name != r.name);
      SloRefKept(m.meta.owners, r);
      OwnerMissing(cfg, w, p, m, SloRefs(m.meta.owners), r);
    }
  }

  // ----- A failed overwrite -----

  /**
   An overwrite whose read fails, or whose write never arrives, is reported on the MimirRule: its Ready text turns
   False, the rest of it stays, and the pass ends in an error.
   */
  lemma OverwriteFailureReported(
    cfg: Config, pc: Pc, derived: MimirRule, m: MimirRule, tries: nat, w: World, env: Environment, t: nat)
    requires w.rule == Some(m) && !m.meta.deleting
    requires pc == OverwriteGet(derived, m, tries) || pc == OverwritePut(derived, m, tries)
    requires env.fault(t) == Dropped && env.fault(t + 1) == Fine && forall k, v :: env.disturb(k, v) == v
    ensures var end := Pass(cfg, pc, w, env, t);
      && end.outcome == Failed(Transient) && end.world.rule.Some?
      && end.world.rule.value == m.(status := "False", meta := m.meta.(version := end.world.rule.value.meta.version))
      && end.world == w.(rule := end.world.rule, clock := end.world.clock)
  {
    hide PutRuleStatus;
    assert Pass(cfg, pc, w, env, t) == Pass(cfg, MarkFailed(m), w, env, t + 1);
    StatusWritten(w, m);
    assert Pass(cfg, MarkFailed(m), w, env, t + 1)
        == Pass(cfg, RETRY, PutRuleStatus(w, m.(status := "False"), Fine).0, env, t + 2);
  }

  lemma StatusWritten(w: World, m: MimirRule)
    requires w.rule == Some(m) && !m.meta.deleting
    ensures var v := PutRuleStatus(w, m.(status := "False"), Fine).0;
      && v.rule.Some? && v == w.(rule := v.rule, clock := v.clock)
      && v.rule.value == m.(status := "False", meta := m.meta.(version := v.rule.value.meta.version))
  {
    hide AddsFinalizer;
  }

  // ----- A failed group call -----

  /** The first `n` calls from the t-th on go well, the next fails, and nobody else is about. */
  ghost predicate FailsAfter(env: Environment, t: nat, n: nat)
  {
    && (forall k | t <= k < t + n :: env.fault(k) == Fine) && env.fault(t + n) != Fine
    && forall k, v :: env.disturb(k, v) == v
  }

  /** How many of the groups the calls have reached, the last of them perhaps with its answer lost. */
  function Reached(env: Environment, t: nat, n: nat): nat
  {
    if env.fault(t + n) == ReplyLost then n + 1 else n
  }

  lemma OnePush(
    cfg: Config, p: PrometheusRule, m: MimirRule, slo: Slo, pushes: seq<PushedGroup>, w: World, env: Environment,
    t: nat)
    requires pushes != [] && forall k, v :: env.disturb(k, v) == v
    ensures var (v, ok) := PushGroup(w, Client(m.spec.connection.address, m.spec.connection.targetTenant), pushes[0],
                                     env.fault(t));
      Pass(cfg, AfterPushing(p, m, slo, pushes), w, env, t)
        == if ok then Pass(cfg, AfterPushing(p, m, slo, pushes[1..]), v, env, t + 1)
           else PassEnd(Failed(Transient), v, t + 1)
  {
    hide AfterRuleGuard;
    var client := Client(m.spec.connection.address, m.spec.connection.targetTenant);
    var (v, ok) := PushGroup(w, client, pushes[0], env.fault(t));
    assert Pass(cfg, AfterPushing(p, m, slo, pushes), w, env, t)
        == Pass(cfg, if ok then AfterPushing(p, m, slo, pushes[1..]) else RETRY, v, env, t + 1);
  }

  /** Pushing stops at the first failing call: exactly the groups reached so far are in Mimir, and nothing else. */
  lemma {:induction false} PushesStopAtFailure(
    cfg: Config, p: PrometheusRule, m: MimirRule, slo: Slo, pushes: seq<PushedGroup>, n: nat, w: World,
    env: Environment, t: nat)
    requires n < |pushes| && FailsAfter(env, t, n)
    ensures var client := Client(m.spec.connection.address, m.spec.connection.targetTenant);
      Pass(cfg, AfterPushing(p, m, slo, pushes), w, env, t)
        == PassEnd(Failed(Transient), w.(ruler := PushAll(w.ruler, client, pushes[..Reached(env, t, n)])), t + n + 1)
    decreases n
  {
    hide AfterPushing, Pass;
    var client := Client(m.spec.connection.address, m.spec.connection.targetTenant);
    var v := PushGroup(w, client, pushes[0], env.fault(t)).0;
    OnePush(cfg, p, m, slo, pushes, w, env, t);
    if n > 0 {
      PushesStopAtFailure(cfg, p, m, slo, pushes[1..], n - 1, v, env, t + 1);
      FirstPush(w.ruler, client, pushes, Reached(env, t, n));
    } else if env.fault(t) == ReplyLost {
      FirstPush(w.ruler, client, pushes, 1);
      assert pushes[1..][..0] == [];
    } else {
      assert pushes[..0] == [];
    }
  }

  lemma FirstPush(ruler: Ruler, client: Client, pushes: seq<PushedGroup>, n: nat)
    requires 0 < n <= |pushes|
    ensures PushAll(ruler, client, pushes[..n])
         == PushAll(ruler[Place(client, pushes[0].name) := pushes[0]], client, pushes[1..][..n - 1])
  {
    assert pushes[..n][1..] == pushes[1..][..n - 1];
  }

  lemma OneDelete(
    cfg: Config, p: PrometheusRule, m: MimirRule, names: seq<string>, w: World, env: Environment, t: nat)
    requires names != [] && forall k, v :: env.disturb(k, v) == v
    ensures var (v, ok) := DeleteGroup(w, Client(m.spec.connection.address, m.spec.connection.targetTenant), names[0],
                                       env.fault(t));
      Pass(cfg, AfterDeleting(p, m, names), w, env, t)
        == if ok then Pass(cfg, AfterDeleting(p, m, names[1..]), v, env, t + 1)
           else PassEnd(Failed(Transient), v, t + 1)
  {
    hide AfterRelease;
    var client := Client(m.spec.connection.address, m.spec.connection.targetTenant);
    var (v, ok) := DeleteGroup(w, client, names[0], env.fault(t));
    assert Pass(cfg, AfterDeleting(p, m, names), w, env, t)
        == Pass(cfg, if ok then AfterDeleting(p, m, names[1..]) else RETRY, v, env, t + 1);
  }

  /** So does deleting: the groups reached are gone, the rest and both objects are as they were. */
  lemma {:induction false} DeletesStopAtFailure(
    cfg: Config, p: PrometheusRule, m: MimirRule, names: seq<string>, n: nat, w: World, env: Environment, t: nat)
    requires n < |names| && FailsAfter(env, t, n)
    ensures var client := Client(m.spec.connection.address, m.spec.connection.targetTenant);
      Pass(cfg, AfterDeleting(p, m, names), w, env, t)
        == PassEnd(Failed(Transient), w.(ruler := DeleteAll(w.ruler, client, names[..Reached(env, t, n)])), t + n + 1)
    decreases n
  {
    hide AfterDeleting, Pass;
    var client := Client(m.spec.connection.address, m.spec.connection.targetTenant);
    var v := DeleteGroup(w, client, names[0], env.fault(t)).0;
    OneDelete(cfg, p, m, names, w, env, t);
    if n > 0 {
      DeletesStopAtFailure(cfg, p, m, names[1..], n - 1, v, env, t + 1);
      FirstDelete(w.ruler, client, names, Reached(env, t, n));
    } else if env.fault(t) == ReplyLost {
      FirstDelete(w.ruler, client, names, 1);
      assert names[1..][..0] == [];
    } else {
      assert names[..0] == [];
    }
  }

  lemma FirstDelete(ruler: Ruler, client: Client, names: seq<string>, n: nat)
    requires 0 < n <= |names|
    ensures DeleteAll(ruler, client, names[..n])
         == DeleteAll(ruler - {Place(client, names[0])}, client, names[1..][..n - 1])
  {
    assert names[..n][1..] == names[1..][..n - 1];
  }
}
