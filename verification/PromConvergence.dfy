/**
 What a pass of the PrometheusRule controller makes of the stored PrometheusRule, whatever groups it held
 before: failure-free passes bring it up to date and are idempotent, passes that settle have done so under
 any faults, and an overwrite gives up only after five conflicts.
 */
module PromConvergence {
  import opened Text
  import opened Selectors
  import opened Api
  import opened RuleCompiler
  import opened EmittedRules
  import opened Conditions
  import opened ObjectStore
  import opened Cluster
  import opened PromController
  import opened Agreement
  import Contention

  // ----- The setting -----

  /** The k-th owner is the first SLO among the owners, and has this name. */
  predicate FirstSloOwner(refs: seq<OwnerRef>, k: nat, name: string)
  {
    && k < |refs| && refs[k].kind == "SLO" && refs[k].name == name
    && forall i | 0 <= i < k :: refs[i].kind != "SLO"
  }

  lemma {:induction false} FirstSloRef(refs: seq<OwnerRef>, k: nat, name: string)
    requires FirstSloOwner(refs, k, name)
    ensures SloRef(refs).Some? && SloRef(refs).value.name == name
  {
    if k > 0 {
      FirstSloRef(refs[1..], k - 1, name);
    }
  }

  lemma {:induction false} NoSloRef(refs: seq<OwnerRef>)
    requires forall i | 0 <= i < |refs| :: refs[i].kind != "SLO"
    ensures SloRef(refs) == None
  {
    if refs != [] {
      NoSloRef(refs[1..]);
    }
  }

  /** A referenced SLI as stored, or what this controller takes from an inline one: all but the threshold metric. */
  predicate Indicated(w: World, slo: Slo, sli: Sli)
  {
    if slo.spec.indicatorRef.Some? then
      slo.spec.indicatorRef.value in w.slis && w.slis[slo.spec.indicatorRef.value] == sli
    else
      && slo.spec.indicator.Some?
      && sli.spec == SliSpec(slo.spec.indicator.value.spec.description, MetricSource("", "", ""),
                             slo.spec.indicator.value.spec.ratio)
      && sli.meta == Meta(slo.spec.indicator.value.name, "", map[], map[], [], [], false, 0, 0)
  }

  /** A stored PrometheusRule, its SLO and an SLI for that. */
  ghost predicate Due(w: World, sli: Sli)
  {
    && w.prom.Some? && w.slo.Some? && Indicated(w, w.slo.value, sli)
    && exists k: nat :: FirstSloOwner(w.prom.value.meta.owners, k, w.slo.value.meta.name)
  }

  /** The object holds the groups compiled for the SLO and the SLI, and is labelled and owned for the SLO. */
  predicate UpToDate(p: PrometheusRule, groups: seq<RuleGroup>, slo: Slo)
  {
    && p.spec == groups
    && p.meta.name == slo.meta.name && p.meta.namespace == slo.meta.namespace
    && p.meta.labels == slo.meta.labels && p.meta.annotations == slo.meta.annotations
    && p.meta.owners == [OwnerRef("SLO", slo.meta.name, slo.meta.uid, true)] && p.meta.finalizers == []
  }

  // ----- Failure-free passes -----

  /** Objects without a status are the same if they have the same metadata and spec. */
  lemma Same<S>(a: Object<S, ()>, b: Object<S, ()>)
    requires a.meta == b.meta && a.spec == b.spec
    ensures a == b
  {
    assert a.status == () == b.status;
  }

  /** Looking things up changes nothing. */
  lemma ToDerive(cfg: Config, w: World, sli: Sli, t: nat) returns (later: nat)
    requires Due(w, sli)
    ensures Pass(cfg, GetProm, w, CALM, t) == Pass(cfg, Derive(cfg, w.prom.value, w.slo.value, sli), w, CALM, later)
  {
    hide Derive, FirstSloOwner, Pass;
    var p, slo := w.prom.value, w.slo.value;
    var k: nat :| FirstSloOwner(p.meta.owners, k, slo.meta.name);
    FirstSloRef(p.meta.owners, k, slo.meta.name);
    CalmStep(cfg, GetProm, w, t);
    CalmStep(cfg, GetOwner(p, slo.meta.name), w, t + 1);
    if slo.spec.indicatorRef.Some? {
      CalmStep(cfg, GetSli(p, slo, slo.spec.indicatorRef.value), w, t + 2);
      return t + 3;
    }
    Same(sli, InlineSli(slo.spec.indicator.value));
    return t + 2;
  }

  /** The object under the identity and version of another one. */
  function Identified(o: PrometheusRule, meta: Meta): PrometheusRule
  {
    o.(meta := o.meta.(uid := meta.uid, deleting := meta.deleting, version := meta.version))
  }

  /** The derived object over the stored one. */
  lemma PutOver(w: World, derived: PrometheusRule)
    requires w.prom.Some? && derived.meta.finalizers == []
    ensures var p := w.prom.value;
      var (v, reply) := PutProm(w, derived.(meta := derived.meta.(version := p.meta.version)), Fine);
      && reply.Done? && v == w.(prom := v.prom, clock := v.clock)
      && (!p.meta.deleting ==>
            && v.prom.Some? && v.prom.value.spec == derived.spec
            && v.prom.value.meta == derived.meta.(
                 uid := p.meta.uid, deleting := false, version := v.prom.value.meta.version))
      && (p.meta.deleting && p.meta.finalizers != [] ==> v.prom == None)
      && (p == Identified(derived, p.meta) ==> v == w)
  {
  }

  lemma CalmTouch(cfg: Config, w: World, t: nat)
    requires w.slo.Some?
    ensures Pass(cfg, TouchGet(w.slo.value.meta.name, ATTEMPTS, false), w, CALM, t) == PassEnd(Settled, w, t + 2)
  {
    var slo := w.slo.value;
    CalmStep(cfg, TouchGet(slo.meta.name, ATTEMPTS, false), w, t);
    CalmStep(cfg, TouchPut(slo.meta.name, slo, ATTEMPTS, false), w, t + 1);
  }

  /** What a pass derives, as an object. */
  lemma DerivedObject(cfg: Config, slo: Slo, sli: Sli, groups: seq<RuleGroup>)
    requires RuleGroups(cfg, slo, sli) == Success(groups)
    ensures CreatePrometheusRule(cfg, slo, sli).Success?
    ensures var p := CreatePrometheusRule(cfg, slo, sli).value;
      UpToDate(p, groups, slo) && !p.meta.deleting && p.meta.uid == 0 && p.meta.version == 0
  {
    hide RuleGroups, Failing;
    EmittedObject(cfg, slo, sli);
  }

  /**
   Whatever groups it held, a failure-free pass leaves the stored PrometheusRule with exactly the groups
   compiled for its first SLO owner and that SLO's SLI, and touches nothing else.  One being deleted loses its
   finalizers to the overwrite and goes.
   */
  lemma PassBringsUpToDate(cfg: Config, w: World, sli: Sli, groups: seq<RuleGroup>, t: nat)
    requires Due(w, sli) && RuleGroups(cfg, w.slo.value, sli) == Success(groups)
    ensures var end := Pass(cfg, GetProm, w, CALM, t);
      && end.outcome == Settled && end.world == w.(prom := end.world.prom, clock := end.world.clock)
      && (!w.prom.value.meta.deleting ==>
            && end.world.prom.Some? && UpToDate(end.world.prom.value, groups, w.slo.value)
            && !end.world.prom.value.meta.deleting && end.world.prom.value.meta.uid == w.prom.value.meta.uid)
      && (w.prom.value.meta.deleting && w.prom.value.meta.finalizers != [] ==> end.world.prom == None)
      && (UpToDate(w.prom.value, groups, w.slo.value) && !w.prom.value.meta.deleting ==> end.world == w)
  {
    hide RuleGroups, CreatePrometheusRule, Pass, PutProm;
    var p, slo := w.prom.value, w.slo.value;
    var later := ToDerive(cfg, w, sli, t);
    DerivedObject(cfg, slo, sli, groups);
    var derived := CreatePrometheusRule(cfg, slo, sli).value;
    if p == derived {
      Stopped(cfg, Settled, w, later);
    } else {
      CalmStep(cfg, OverwriteGet(derived, slo.meta.name, ATTEMPTS), w, later);
      CalmStep(cfg, OverwritePut(derived, slo.meta.name, p, ATTEMPTS), w, later + 1);
      PutOver(w, derived);
      if UpToDate(p, groups, slo) {
        Same(p, Identified(derived, p.meta));
      }
      var (v, reply) := PutProm(w, derived.(meta := derived.meta.(version := p.meta.version)), Fine);
      CalmTouch(cfg, v, later + 2);
    }
  }

  lemma Stopped(cfg: Config, outcome: Outcome, w: World, t: nat)
    ensures Pass(cfg, Stop(outcome), w, CALM, t) == PassEnd(outcome, w, t)
  {
  }

  /** A second pass changes nothing. */
  lemma SecondPassIdle(cfg: Config, w: World, sli: Sli, groups: seq<RuleGroup>, t: nat, u: nat)
    requires Due(w, sli) && RuleGroups(cfg, w.slo.value, sli) == Success(groups) && !w.prom.value.meta.deleting
    ensures var v := Pass(cfg, GetProm, w, CALM, t).world; Pass(cfg, GetProm, v, CALM, u).world == v
  {
    hide RuleGroups, Pass;
    PassBringsUpToDate(cfg, w, sli, groups, t);
    var v := Pass(cfg, GetProm, w, CALM, t).world;
    assert FirstSloOwner(v.prom.value.meta.owners, 0, v.slo.value.meta.name);
    PassBringsUpToDate(cfg, v, sli, groups, u);
  }

  /** If the groups do not compile, the pass fails, or panics for want of an objective, and writes nothing. */
  lemma UncompilableLeftAlone(cfg: Config, w: World, sli: Sli, t: nat)
    requires Due(w, sli) && Failing(cfg, w.slo.value, sli).Some?
    ensures var end := Pass(cfg, GetProm, w, CALM, t);
      && end.world == w
      && end.outcome == Failed(if Failing(cfg, w.slo.value, sli) == Some(NoObjectives) then Crashed else Plain)
  {
    hide RuleGroups, Failing;
    var later := ToDerive(cfg, w, sli, t);
    CompilesIff(cfg, w.slo.value, sli);
  }

  // ----- The other failure-free passes -----

  lemma TellMissing(w: World, slo: Slo)
    requires w.slo == Some(slo) && !slo.meta.deleting
    ensures var (v, reply) := PutSloStatus(w, WithReady(slo, w.now), Fine);
      && reply.Done? && v.slo.Some? && NotReady(slo, v.slo.value, "SLI Object not found", w.now)
      && v == w.(slo := v.slo, clock := v.clock)
  {
    hide WithCondition, Marked;
    MarkedBy(slo, "False", "SLI Object not found", w.now, slo.meta.version);
    MarkedBy(slo, "False", "SLI Object not found", w.now, w.clock + 1);
  }

  /**
   Nothing to do: no PrometheusRule, or one without an SLO among its owners that is not labelled as managed.
   A labelled one makes the controller panic, and one whose SLO is gone or has another name fails; none of
   them writes anything.
   */
  lemma NoSloNothingWritten(cfg: Config, w: World, t: nat)
    requires w.prom.Some? ==>
      var refs := w.prom.value.meta.owners;
      || (forall i | 0 <= i < |refs| :: refs[i].kind != "SLO")
      || exists k: nat, name :: FirstSloOwner(refs, k, name) && (w.slo.Some? ==> w.slo.value.meta.name != name)
    requires w.slo.Some? ==> w.slo.value.meta.version > 0
    ensures var end := Pass(cfg, GetProm, w, CALM, t);
      && end.world == w
      && end.outcome ==
         if w.prom.None? then Settled
         else if exists i :: 0 <= i < |w.prom.value.meta.owners| && w.prom.value.meta.owners[i].kind == "SLO"
         then Failed(Plain)
         else if Get(w.prom.value.meta.labels, "osko.dev/manage") == "true" then Failed(Crashed)
         else Settled
  {
    hide PutSloStatus, WithReady;
    CalmStep(cfg, GetProm, w, t);
    if w.prom.Some? {
      var p := w.prom.value;
      if forall i | 0 <= i < |p.meta.owners| :: p.meta.owners[i].kind != "SLO" {
        NoSloRef(p.meta.owners);
        if Get(p.meta.labels, "osko.dev/manage") == "true" {
          CalmStep(cfg, NoIndicator(NO_SLO), w, t + 1);
          TellNobody(w);
        }
      } else {
        var k: nat, name :| FirstSloOwner(p.meta.owners, k, name) && (w.slo.Some? ==> w.slo.value.meta.name != name);
        FirstSloRef(p.meta.owners, k, name);
        CalmStep(cfg, GetOwner(p, name), w, t + 1);
      }
    }
  }

  lemma TellNobody(w: World)
    requires w.slo.Some? ==> w.slo.value.meta.version > 0
    ensures var (v, reply) := PutSloStatus(w, WithReady(NO_SLO, w.now), Fine); v == w && !reply.Done?
  {
    hide WithCondition;
  }

  /** A missing SLI is reported on the SLO; the PrometheusRule stays as it is, and the pass counts as settled. */
  lemma MissingSliReported(cfg: Config, w: World, k: nat, t: nat)
    requires w.prom.Some? && w.slo.Some? && !w.slo.value.meta.deleting
    requires FirstSloOwner(w.prom.value.meta.owners, k, w.slo.value.meta.name)
    requires
      if w.slo.value.spec.indicatorRef.Some? then w.slo.value.spec.indicatorRef.value !in w.slis
      else w.slo.value.spec.indicator.None?
    ensures var end := Pass(cfg, GetProm, w, CALM, t);
      && end.outcome == Settled && end.world.slo.Some?
      && NotReady(w.slo.value, end.world.slo.value, "SLI Object not found", w.now)
      && end.world == w.(slo := end.world.slo, clock := end.world.clock)
  {
    hide PutSloStatus, WithReady, NotReady, FirstSloOwner;
    var p, slo := w.prom.value, w.slo.value;
    FirstSloRef(p.meta.owners, k, slo.meta.name);
    CalmStep(cfg, GetProm, w, t);
    CalmStep(cfg, GetOwner(p, slo.meta.name), w, t + 1);
    TellMissing(w, slo);
    if slo.spec.indicatorRef.Some? {
      CalmStep(cfg, GetSli(p, slo, slo.spec.indicatorRef.value), w, t + 2);
      CalmStep(cfg, SliMissing(slo), w, t + 3);
    } else {
      CalmStep(cfg, NoIndicator(slo), w, t + 2);
    }
  }

  // ----- Under faults -----

  /** A position from which a pass settles only with the derived groups stored. */
  predicate OnCourse(pc: Pc, w: World, derived: PrometheusRule)
  {
    && w.prom.Some? && !w.prom.value.meta.deleting
    && match pc
       case OverwriteGet(d, _, _) => d == derived
       case OverwritePut(d, _, _, _) => d == derived
       case TouchGet(_, _, again) => w.prom.value.spec == derived.spec
       case TouchPut(_, _, _, again) => w.prom.value.spec == derived.spec
       case Stop(outcome) => outcome.Failed? || w.prom.value.spec == derived.spec
       case _ => false
  }

  lemma StepOnCourse(cfg: Config, pc: Pc, w: World, f: Fault, derived: PrometheusRule)
    requires OnCourse(pc, w, derived)
    ensures var (pc', v) := Advance(cfg, pc, w, f); OnCourse(pc', v, derived)
  {
    hide AddsFinalizer, StatusReplaced;
  }

  lemma {:induction false} PassOnCourse(
    cfg: Config, pc: Pc, w: World, env: Environment, t: nat, derived: PrometheusRule)
    requires OnCourse(pc, w, derived) && forall k, v :: env.disturb(k, v) == v
    ensures var end := Pass(cfg, pc, w, env, t); OnCourse(Stop(end.outcome), end.world, derived)
    decreases Stage(pc), Count(pc)
  {
    hide Advance, OnCourse;
    if !pc.Stop? {
      AdvanceProgresses(cfg, pc, w, env.fault(t));
      StepOnCourse(cfg, pc, w, env.fault(t), derived);
      PassOnCourse(cfg, Advance(cfg, pc, w, env.fault(t)).0, Advance(cfg, pc, w, env.fault(t)).1, env, t + 1, derived);
    } else {
      StoppedAnyway(cfg, pc.outcome, w, env, t);
    }
  }

  lemma StoppedAnyway(cfg: Config, outcome: Outcome, w: World, env: Environment, t: nat)
    ensures Pass(cfg, Stop(outcome), w, env, t) == PassEnd(outcome, w, t)
  {
  }

  lemma OneCall(cfg: Config, pc: Pc, w: World, env: Environment, t: nat)
    requires !pc.Stop? && forall k, v :: env.disturb(k, v) == v
    ensures var (pc', v) := Advance(cfg, pc, w, env.fault(t)); Pass(cfg, pc, w, env, t) == Pass(cfg, pc', v, env, t + 1)
  {
    hide Advance;
  }

  lemma LookUps(cfg: Config, w: World, sli: Sli, env: Environment, t: nat) returns (later: nat)
    requires Due(w, sli) && forall k, v :: env.disturb(k, v) == v
    requires w.slo.value.spec.indicatorRef.Some? ==> env.fault(t + 2) == Fine
    ensures Pass(cfg, GetProm, w, env, t).outcome.Failed?
      || Pass(cfg, GetProm, w, env, t) == Pass(cfg, Derive(cfg, w.prom.value, w.slo.value, sli), w, env, later)
  {
    hide Derive, FirstSloOwner, Pass;
    var p, slo := w.prom.value, w.slo.value;
    var k: nat :| FirstSloOwner(p.meta.owners, k, slo.meta.name);
    FirstSloRef(p.meta.owners, k, slo.meta.name);
    OneCall(cfg, GetProm, w, env, t);
    OneCall(cfg, GetOwner(p, slo.meta.name), w, env, t + 1);
    StoppedAnyway(cfg, Failed(Plain), w, env, t + 1);
    StoppedAnyway(cfg, Failed(Plain), w, env, t + 2);
    if slo.spec.indicatorRef.Some? {
      OneCall(cfg, GetSli(p, slo, slo.spec.indicatorRef.value), w, env, t + 2);
      return t + 3;
    }
    Same(sli, InlineSli(slo.spec.indicator.value));
    return t + 2;
  }

  /**
   However its calls fail: if the pass does not report an error, the groups stored are the compiled ones.  A
   failed look-up of a referenced SLI is the one exception; it is taken for a missing SLI.
   */
  lemma SettledMeansUpToDate(
    cfg: Config, w: World, sli: Sli, groups: seq<RuleGroup>, env: Environment, t: nat)
    requires Due(w, sli) && RuleGroups(cfg, w.slo.value, sli) == Success(groups) && !w.prom.value.meta.deleting
    requires forall k, v :: env.disturb(k, v) == v
    requires w.slo.value.spec.indicatorRef.Some? ==> env.fault(t + 2) == Fine
    ensures var end := Pass(cfg, GetProm, w, env, t);
      end.outcome.Failed? || (end.world.prom.Some? && end.world.prom.value.spec == groups)
  {
    hide RuleGroups, CreatePrometheusRule, Indicated, FirstSloOwner, Pass;
    DerivedObject(cfg, w.slo.value, sli, groups);
    var pc := Derive(cfg, w.prom.value, w.slo.value, sli);
    var later := LookUps(cfg, w, sli, env, t);
    PassOnCourse(cfg, pc, w, env, later, CreatePrometheusRule(cfg, w.slo.value, sli).value);
  }

  // ----- Under conflicts -----

  /** The world that others' edits alone lead to in `n` calls from the t-th on. */
  function Drift(env: Environment, w: World, t: nat, n: nat): World
  {
    if n == 0 then w else env.disturb(t + n - 1, Drift(env, w, t, n - 1))
  }

  lemma {:induction false} DriftOn(env: Environment, w: World, t: nat, m: nat, n: nat)
    ensures Drift(env, Drift(env, w, t, m), t + m, n) == Drift(env, w, t, m + n)
  {
    if n > 0 {
      DriftOn(env, w, t, m, n - 1);
    }
  }

  /** The PrometheusRule changes between the i-th attempt's read and its write. */
  predicate Contended(env: Environment, w: World, t: nat, i: nat)
  {
    && Drift(env, w, t, 2 * i + 1).prom.Some? && Drift(env, w, t, 2 * i + 2).prom.Some?
    && Drift(env, w, t, 2 * i + 1).prom.value.meta.version != Drift(env, w, t, 2 * i + 2).prom.value.meta.version
  }

  lemma ContendedLater(env: Environment, w: World, t: nat, i: nat)
    ensures Contended(env, Drift(env, w, t, 2), t + 2, i) <==> Contended(env, w, t, i + 1)
  {
    hide Drift;
    DriftOn(env, w, t, 2, 2 * i + 1);
    DriftOn(env, w, t, 2, 2 * i + 2);
  }

  lemma StalePut(w: World, o: PrometheusRule)
    requires w.prom.Some? && o.meta.version != w.prom.value.meta.version
    ensures PutProm(w, o, Fine) == (w, Conflict)
  {
  }

  /** One attempt that meets a change. */
  lemma AttemptFails(
    cfg: Config, derived: PrometheusRule, name: string, tries: nat, w: World, env: Environment, t: nat)
    requires (forall k :: env.fault(k) == Fine) && Contended(env, w, t, 0)
    ensures Pass(cfg, OverwriteGet(derived, name, tries), w, env, t)
         == if tries > 1 then Pass(cfg, OverwriteGet(derived, name, tries - 1), Drift(env, w, t, 2), env, t + 2)
            else PassEnd(Failed(Plain), Drift(env, w, t, 2), t + 2)
  {
    hide Committed, AddsFinalizer, PutProm;
    assert Drift(env, w, t, 1) == env.disturb(t, w);
    var u := Drift(env, w, t, 2);
    assert u == env.disturb(t + 1, env.disturb(t, w));
    var p := env.disturb(t, w).prom.value;
    assert Pass(cfg, OverwriteGet(derived, name, tries), w, env, t)
        == Pass(cfg, OverwritePut(derived, name, p, tries), env.disturb(t, w), env, t + 1);
    StalePut(u, derived.(meta := derived.meta.(version := p.meta.version)));
  }

  lemma {:induction false} AttemptsFail(
    cfg: Config, derived: PrometheusRule, name: string, tries: nat, w: World, env: Environment, t: nat, n: nat)
    requires (forall k :: env.fault(k) == Fine) && n < tries
    requires forall i: nat | i < n :: Contended(env, w, t, i)
    ensures Pass(cfg, OverwriteGet(derived, name, tries), w, env, t)
         == Pass(cfg, OverwriteGet(derived, name, tries - n), Drift(env, w, t, 2 * n), env, t + 2 * n)
    decreases n
  {
    hide Pass, Drift, Contended;
    if n > 0 {
      assert Contended(env, w, t, 0);
      AttemptFails(cfg, derived, name, tries, w, env, t);
      var u, s := Drift(env, w, t, 2), t + 2;
      forall i: nat | i < n - 1
        ensures Contended(env, u, s, i)
      {
        ContendedLater(env, w, t, i);
      }
      AttemptsFail(cfg, derived, name, tries - 1, Drift(env, w, t, 2), env, t + 2, n - 1);
      DriftOn(env, w, t, 2, 2 * (n - 1));
    } else {
      NoDrift(env, w, t);
    }
  }

  lemma NoDrift(env: Environment, w: World, t: nat)
    ensures Drift(env, w, t, 0) == w
  {
  }

  /** One attempt that meets no change. */
  lemma AttemptSucceeds(
    cfg: Config, derived: PrometheusRule, name: string, tries: nat, w: World, env: Environment, t: nat)
    requires (forall k :: env.fault(k) == Fine) && derived.meta.finalizers == []
    requires Drift(env, w, t, 1).prom.Some? && Drift(env, w, t, 2).prom.Some? && !Contended(env, w, t, 0)
    requires !Drift(env, w, t, 2).prom.value.meta.deleting
    ensures var before := Drift(env, w, t, 2); var v := Written(before, derived);
      && v.prom.Some? && v.prom.value.spec == derived.spec
      && Pass(cfg, OverwriteGet(derived, name, tries), w, env, t)
         == Pass(cfg, TouchGet(name, ATTEMPTS, false), v, env, t + 2)
  {
    hide AddsFinalizer, PutProm;
    assert Drift(env, w, t, 1) == env.disturb(t, w);
    var u := Drift(env, w, t, 2);
    assert u == env.disturb(t + 1, env.disturb(t, w));
    var p := env.disturb(t, w).prom.value;
    assert Pass(cfg, OverwriteGet(derived, name, tries), w, env, t)
        == Pass(cfg, OverwritePut(derived, name, p, tries), env.disturb(t, w), env, t + 1);
    PutOver(u, derived);
  }

  /** The derived object written over the stored one. */
  function Written(w: World, derived: PrometheusRule): World
    requires w.prom.Some?
  {
    PutProm(w, derived.(meta := derived.meta.(version := w.prom.value.meta.version)), Fine).0
  }

  /**
   Others editing the PrometheusRule between a read and the write that follows make the overwrite start over,
   and give up exactly when that happens five times; otherwise the derived groups are stored.
   */
  lemma FiveConflicts(
    cfg: Config, derived: PrometheusRule, name: string, w: World, env: Environment, t: nat)
    requires (forall k :: env.fault(k) == Fine) && derived.meta.finalizers == []
    requires forall n: nat | n <= 10 :: Drift(env, w, t, n).prom.Some? && !Drift(env, w, t, n).prom.value.meta.deleting
    ensures (forall i: nat | i < 5 :: Contended(env, w, t, i)) ==>
      Pass(cfg, OverwriteGet(derived, name, ATTEMPTS), w, env, t)
        == PassEnd(Failed(Plain), Drift(env, w, t, 10), t + 10)
    ensures forall i: nat | i < 5 && !Contended(env, w, t, i) && forall j: nat | j < i :: Contended(env, w, t, j) ::
      var v := Written(Drift(env, w, t, 2 * i + 2), derived);
      && v.prom.Some? && v.prom.value.spec == derived.spec
      && Pass(cfg, OverwriteGet(derived, name, ATTEMPTS), w, env, t)
         == Pass(cfg, TouchGet(name, ATTEMPTS, false), v, env, t + 2 * i + 2)
  {
    hide Pass, Drift, Contended, Written;
    if forall i: nat | i < 5 :: Contended(env, w, t, i) {
      AttemptsFail(cfg, derived, name, 5, w, env, t, 4);
      DriftOn(env, w, t, 8, 2);
      LaterAttempt(env, w, t, 4);
      AttemptFails(cfg, derived, name, 1, Drift(env, w, t, 8), env, t + 8);
    }
    forall i: nat | i < 5 && !Contended(env, w, t, i) && forall j: nat | j < i :: Contended(env, w, t, j)
      ensures var v := Written(Drift(env, w, t, 2 * i + 2), derived);
        && v.prom.Some? && v.prom.value.spec == derived.spec
        && Pass(cfg, OverwriteGet(derived, name, ATTEMPTS), w, env, t)
           == Pass(cfg, TouchGet(name, ATTEMPTS, false), v, env, t + 2 * i + 2)
    {
      AttemptsFail(cfg, derived, name, 5, w, env, t, i);
      DriftOn(env, w, t, 2 * i, 1);
      DriftOn(env, w, t, 2 * i, 2);
      LaterAttempt(env, w, t, i);
      AttemptSucceeds(cfg, derived, name, 5 - i, Drift(env, w, t, 2 * i), env, t + 2 * i);
    }
  }

  lemma LaterAttempt(env: Environment, w: World, t: nat, i: nat)
    ensures Contended(env, Drift(env, w, t, 2 * i), t + 2 * i, 0) <==> Contended(env, w, t, i)
  {
    hide Drift;
    DriftOn(env, w, t, 2 * i, 1);
    DriftOn(env, w, t, 2 * i, 2);
  }

  /** Others edit the SLO before every call. */
  function BusySlo(w: World): World
  {
    match w.slo
    case None => w
    case Some(o) => w.(slo := Some(o.(meta := o.meta.(version := w.clock + 1))), clock := w.clock + 1)
  }

  function BusySloFor(w: World, n: nat): World
    decreases n
  {
    if n == 0 then w else BusySloFor(BusySlo(w), n - 1)
  }

  ghost predicate AlwaysBusy(env: Environment)
  {
    (forall k :: env.fault(k) == Fine) && forall k, v :: env.disturb(k, v) == BusySlo(v)
  }

  lemma StaleStatus(w: World, slo: Slo)
    requires w.slo.Some? && BusySlo(w).slo == Some(slo)
    ensures PutSloStatus(BusySlo(BusySlo(w)), slo, Fine) == (BusySlo(BusySlo(w)), Conflict)
  {
  }

  lemma RefreshAttempt(cfg: Config, name: string, tries: nat, again: bool, w: World, env: Environment, t: nat)
    requires AlwaysBusy(env) && tries > 0 && w.slo.Some? && w.slo.value.meta.name == name
    ensures Pass(cfg, TouchGet(name, tries, again), w, env, t)
         == Pass(cfg, if tries > 1 then TouchGet(name, tries - 1, again) else TouchFailed(name, again),
                 BusySlo(BusySlo(w)), env, t + 2)
  {
    hide PutSloStatus, TouchFailed;
    var slo, v := BusySlo(w).slo.value, BusySlo(BusySlo(w));
    assert env.disturb(t, w) == BusySlo(w) && env.disturb(t + 1, BusySlo(w)) == v;
    assert Pass(cfg, TouchGet(name, tries, again), w, env, t)
        == Pass(cfg, TouchPut(name, slo, tries, again), BusySlo(w), env, t + 1);
    StaleStatus(w, slo);
  }

  lemma {:induction false} RefreshAttempts(
    cfg: Config, name: string, tries: nat, again: bool, w: World, env: Environment, t: nat)
    requires AlwaysBusy(env) && tries > 0 && w.slo.Some? && w.slo.value.meta.name == name
    ensures Pass(cfg, TouchGet(name, tries, again), w, env, t)
         == Pass(cfg, TouchFailed(name, again), BusySloFor(w, 2 * tries), env, t + 2 * tries)
    decreases tries
  {
    hide Pass, TouchFailed;
    RefreshAttempt(cfg, name, tries, again, w, env, t);
    assert BusySloFor(w, 2 * tries) == BusySloFor(BusySlo(BusySlo(w)), 2 * (tries - 1));
    if tries > 1 {
      RefreshAttempts(cfg, name, tries - 1, again, BusySlo(BusySlo(w)), env, t + 2);
    }
  }

  lemma {:induction false} BusyAgain(w: World, m: nat, n: nat)
    ensures BusySloFor(BusySloFor(w, m), n) == BusySloFor(w, m + n)
    ensures BusySloFor(w, m).slo.Some? == w.slo.Some?
    ensures w.slo.Some? ==> BusySloFor(w, m).slo.value.meta.name == w.slo.value.meta.name
    decreases m
  {
    if m > 0 {
      BusyAgain(BusySlo(w), m - 1, n);
    }
  }

  /** An SLO that changes under every attempt of the status refresh: five attempts, five more, and an error. */
  lemma RefreshGivesUp(cfg: Config, name: string, w: World, env: Environment, t: nat)
    requires AlwaysBusy(env) && w.slo.Some? && w.slo.value.meta.name == name
    ensures Pass(cfg, TouchGet(name, ATTEMPTS, false), w, env, t)
         == PassEnd(Failed(Plain), BusySloFor(w, 20), t + 20)
  {
    hide BusySloFor;
    RefreshAttempts(cfg, name, 5, false, w, env, t);
    BusyAgain(w, 10, 10);
    RefreshAttempts(cfg, name, 5, true, BusySloFor(w, 10), env, t + 10);
  }

  // ----- Fewer conflicts than attempts -----

  predicate Edited(w: World, v: World)
  {
    && v == w.(prom := v.prom, slo := v.slo, clock := v.clock)
    && Contention.Relabelled(w.prom, v.prom) && Contention.Relabelled(w.slo, v.slo)
  }

  /** No call fails, and others edit the PrometheusRule and the SLO only before these calls. */
  ghost predicate EditsOnly(env: Environment, t: nat, edits: set<nat>)
  {
    && (forall k :: env.fault(k) == Fine)
    && (forall k: nat, v | k in edits :: Edited(v, env.disturb(k, v)))
    && (forall k: nat, v | k >= t && k !in edits :: env.disturb(k, v) == v)
  }

  /** The indicator in use is there and compiles. */
  predicate Derivable(cfg: Config, w: World, slo: Slo)
  {
    if slo.spec.indicatorRef.Some? then
      && slo.spec.indicatorRef.value in w.slis
      && Failing(cfg, slo, w.slis[slo.spec.indicatorRef.value]).None?
    else slo.spec.indicator.Some? && Failing(cfg, slo, InlineSli(slo.spec.indicator.value)).None?
  }

  predicate LiveProm(w: World)
  {
    w.prom.Some? && !w.prom.value.meta.deleting && w.slo.Some? && !w.slo.value.meta.deleting
  }

  predicate Hopeful(cfg: Config, pc: Pc, w: World, edits: nat)
  {
    && LiveProm(w)
    && match pc
       case GetProm =>
         && Derivable(cfg, w, w.slo.value) && SloRef(w.prom.value.meta.owners).Some?
         && SloRef(w.prom.value.meta.owners).value.name == w.slo.value.meta.name
       case GetOwner(_, name) => Derivable(cfg, w, w.slo.value) && name == w.slo.value.meta.name
       case GetSli(_, slo, name) =>
         && slo.spec.indicatorRef == Some(name) && Derivable(cfg, w, slo) && slo.meta.name == w.slo.value.meta.name
       case OverwriteGet(_, name, tries) => name == w.slo.value.meta.name && tries > edits
       case OverwritePut(_, name, p, tries) =>
         && name == w.slo.value.meta.name && p.meta.version == w.prom.value.meta.version && tries > edits
       case TouchGet(name, tries, again) => name == w.slo.value.meta.name && !again && tries > edits
       case TouchPut(name, slo, tries, again) =>
         && name == w.slo.value.meta.name && slo.meta.version == w.slo.value.meta.version && !again && tries > edits
       case Stop(outcome) => outcome == Settled
       case _ => false
  }

  predicate Met(w: World, v: World, before: nat, after: nat)
  {
    (v == w && after == before) || (Edited(w, v) && after + 1 == before)
  }

  lemma DeriveHopeful(cfg: Config, p: PrometheusRule, slo: Slo, sli: Sli, w: World, edits: nat)
    requires LiveProm(w) && Failing(cfg, slo, sli).None? && slo.meta.name == w.slo.value.meta.name && edits <= 4
    ensures Hopeful(cfg, Derive(cfg, p, slo, sli), w, edits)
  {
    hide RuleGroups, Failing;
    EmittedObject(cfg, slo, sli);
  }

  lemma DerivingHopeful(cfg: Config, pc: Pc, w: World, v: World, before: nat, after: nat)
    requires pc.GetProm? || pc.GetOwner? || pc.GetSli?
    requires Hopeful(cfg, pc, w, before) && Met(w, v, before, after) && before <= 4
    ensures var (pc', u) := Advance(cfg, pc, v, Fine); Hopeful(cfg, pc', u, after)
  {
    hide Derive, InlineSli;
    assert v.slo.value.spec == w.slo.value.spec;
    assert Derivable(cfg, w, w.slo.value) ==> Derivable(cfg, v, v.slo.value);
    match pc
    case GetProm =>
    case GetOwner(p, _) =>
      if v.slo.value.spec.indicatorRef.None? {
        DeriveHopeful(cfg, p, v.slo.value, InlineSli(v.slo.value.spec.indicator.value), v, after);
      }
    case GetSli(p, slo, name) => DeriveHopeful(cfg, p, slo, v.slis[name], v, after);
  }

  lemma WritingHopeful(cfg: Config, pc: Pc, w: World, v: World, before: nat, after: nat)
    requires Writing(pc) && Hopeful(cfg, pc, w, before) && Met(w, v, before, after) && before <= 4
    ensures var (pc', u) := Advance(cfg, pc, v, Fine); Hopeful(cfg, pc', u, after)
  {
    hide AddsFinalizer, Derivable;
  }

  lemma {:induction false} HopefulPass(cfg: Config, pc: Pc, w: World, env: Environment, t: nat, edits: set<nat>)
    requires Hopeful(cfg, pc, w, |edits|) && |edits| <= 4 && EditsOnly(env, t, edits)
    ensures Pass(cfg, pc, w, env, t).outcome == Settled
    decreases Stage(pc), Count(pc)
  {
    hide Advance, Edited, Derivable, LiveProm;
    if !pc.Stop? {
      var v := env.disturb(t, w);
      AdvanceProgresses(cfg, pc, v, Fine);
      assert t !in edits ==> edits - {t} == edits;
      if Writing(pc) {
        WritingHopeful(cfg, pc, w, v, |edits|, |edits - {t}|);
      } else {
        DerivingHopeful(cfg, pc, w, v, |edits|, |edits - {t}|);
      }
      HopefulPass(cfg, Advance(cfg, pc, v, Fine).0, Advance(cfg, pc, v, Fine).1, env, t + 1, edits - {t});
    }
  }

  /**
   With an indicator that compiles, a pass settles however others relabel the PrometheusRule and the SLO before
   up to four of its calls.
   */
  lemma FourEditsSettle(cfg: Config, w: World, k: nat, env: Environment, t: nat, edits: set<nat>)
    requires LiveProm(w) && FirstSloOwner(w.prom.value.meta.owners, k, w.slo.value.meta.name)
    requires Derivable(cfg, w, w.slo.value)
    requires EditsOnly(env, t, edits) && |edits| <= 4
    ensures Pass(cfg, GetProm, w, env, t).outcome == Settled
  {
    hide Pass, EditsOnly, Derivable;
    FirstSloRef(w.prom.value.meta.owners, k, w.slo.value.meta.name);
    HopefulPass(cfg, GetProm, w, env, t, edits);
  }
}
