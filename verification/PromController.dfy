/**
 The PrometheusRule controller as a step machine: it derives the same object a second time from the
 owning SLO and writes it over the stored one.
 */
module PromController {
  import opened Text
  import opened Selectors
  import opened Api
  import opened RuleCompiler
  import opened Conditions
  import opened ObjectStore
  import opened Cluster

  datatype Pc =
    | GetProm
    | GetOwner(prom: PrometheusRule, name: string)
    | GetSli(prom: PrometheusRule, slo: Slo, name: string)
    | SliMissing(slo: Slo)
    | NoIndicator(slo: Slo)
    | OverwriteGet(derived: PrometheusRule, name: string, tries: nat)
    | OverwritePut(derived: PrometheusRule, name: string, prom: PrometheusRule, tries: nat)
    | TouchGet(name: string, tries: nat, again: bool)
    | TouchPut(name: string, slo: Slo, tries: nat, again: bool)
    | Stop(outcome: Outcome)

  /** The first owner reference to an SLO. */
  function SloRef(refs: seq<OwnerRef>): Option<OwnerRef>
  {
    if refs == [] then None else if refs[0].kind == "SLO" then Some(refs[0]) else SloRef(refs[1..])
  }

  /** The SLI of an inline indicator as this controller builds it: the threshold metric is not copied. */
  function InlineSli(indicator: Indicator): Sli
  {
    NO_SLI.(meta := NO_META.(name := indicator.name),
            spec := NO_SLI_SPEC.(description := indicator.spec.description, ratio := indicator.spec.ratio))
  }

  function ExamineProm(prom: PrometheusRule): Pc
  {
    match SloRef(prom.meta.owners)
    case Some(ref) => GetOwner(prom, ref.name)
    case None =>
      if Get(prom.meta.labels, "osko.dev/manage") != "true" then Stop(Settled) else NoIndicator(NO_SLO)
  }

  function ChooseSli(cfg: Config, prom: PrometheusRule, slo: Slo): Pc
  {
    if slo.spec.indicatorRef.Some? then GetSli(prom, slo, slo.spec.indicatorRef.value)
    else if slo.spec.indicator.Some? then Derive(cfg, prom, slo, InlineSli(slo.spec.indicator.value))
    else NoIndicator(slo)
  }

  function Derive(cfg: Config, prom: PrometheusRule, slo: Slo, sli: Sli): Pc
  {
    match CreatePrometheusRule(cfg, slo, sli)
    case Failure(e) => Stop(Failed(if e == NoObjectives then Crashed else Plain))
    case Success(derived) =>
      if prom == derived then Stop(Settled) else OverwriteGet(derived, slo.meta.name, ATTEMPTS)
  }

  /** A status refresh gone wrong is tried once more as a whole, and reported either way. */
  function TouchFailed(name: string, again: bool): Pc
  {
    if again then Stop(Failed(Plain)) else TouchGet(name, ATTEMPTS, true)
  }

  predicate Deriving(pc: Pc)
  {
    pc.GetProm? || pc.GetOwner? || pc.GetSli? || pc.SliMissing? || pc.NoIndicator?
  }

  predicate Writing(pc: Pc)
  {
    pc.OverwriteGet? || pc.OverwritePut? || pc.TouchGet? || pc.TouchPut?
  }

  /** Find the SLO and its SLI, and derive the object. */
  function AdvanceDeriving(cfg: Config, pc: Pc, w: World, f: Fault): (Pc, World)
  {
    match pc
    case GetProm =>
      (match Read(w.prom, f)
       case Absent => Stop(Settled)
       case Unreadable => Stop(Failed(Plain))
       case Present(p) => ExamineProm(p), w)
    case GetOwner(p, name) =>
      (match ReadSloNamed(w, name, f)
       case Absent => Stop(Failed(Plain))
       case Unreadable => Stop(Failed(Plain))
       case Present(slo) => ChooseSli(cfg, p, slo), w)
    case GetSli(p, slo, name) =>
      (match Read(Lookup(w.slis, name), f)
       case Absent => SliMissing(slo)
       case Unreadable => SliMissing(slo)
       case Present(sli) => Derive(cfg, p, slo, sli), w)
    case SliMissing(slo) =>
      var (w', reply) := PutSloStatus(w, WithReady(slo, w.now), f);
      (Stop(if reply.Done? then Settled else Failed(Plain)), w')
    case NoIndicator(slo) =>
      var (w', reply) := PutSloStatus(w, WithReady(slo, w.now), f);
      // this controller is set up without an event recorder, so reporting the failed update panics
      (Stop(if reply.Done? then Settled else Failed(Crashed)), w')
    case _ => (pc, w)
  }

  /** Write the derived object, then the SLO status. */
  function AdvanceWriting(cfg: Config, pc: Pc, w: World, f: Fault): (Pc, World)
  {
    match pc
    case OverwriteGet(derived, name, tries) =>
      (match Read(w.prom, f)
       case Absent => Stop(Failed(Plain))
       case Unreadable => Stop(Failed(Plain))
       case Present(p) => OverwritePut(derived, name, p, tries), w)
    case OverwritePut(derived, name, p, tries) =>
      var (w', reply) := PutProm(w, derived.(meta := derived.meta.(version := p.meta.version)), f);
      (if reply.Done? then TouchGet(name, ATTEMPTS, false)
       else if reply.Conflict? && tries > 1 then OverwriteGet(derived, name, tries - 1)
       else Stop(Failed(Plain)), w')
    case TouchGet(name, tries, again) =>
      (match ReadSloNamed(w, name, f)
       case Absent => TouchFailed(name, again)
       case Unreadable => TouchFailed(name, again)
       case Present(slo) => TouchPut(name, slo, tries, again), w)
    case TouchPut(name, slo, tries, again) =>
      var (w', reply) := PutSloStatus(w, slo, f);
      (if reply.Done? then Stop(if again then Failed(Plain) else Settled)
       else if reply.Conflict? && tries > 1 then TouchGet(name, tries - 1, again)
       else TouchFailed(name, again), w')
    case _ => (pc, w)
  }

  function Advance(cfg: Config, pc: Pc, w: World, f: Fault): (Pc, World)
  {
    if Deriving(pc) then AdvanceDeriving(cfg, pc, w, f)
    else if Writing(pc) then AdvanceWriting(cfg, pc, w, f)
    else (pc, w)
  }

  function WithReady(slo: Slo, now: int): Slo
  {
    slo.(status := WithCondition(slo.status, "Ready", "False", "SLI Object not found", now))
  }

  function Stage(pc: Pc): nat
  {
    match pc
    case GetProm => 10
    case GetOwner(_, _) => 9
    case GetSli(_, _, _) => 8
    case SliMissing(_) => 7
    case NoIndicator(_) => 6
    case OverwriteGet(_, _, _) => 5
    case OverwritePut(_, _, _, _) => 5
    case TouchGet(_, _, again) => if again then 3 else 4
    case TouchPut(_, _, _, again) => if again then 3 else 4
    case Stop(_) => 0
  }

  function Count(pc: Pc): nat
  {
    match pc
    case OverwriteGet(_, _, tries) => 2 * tries + 1
    case OverwritePut(_, _, _, tries) => 2 * tries
    case TouchGet(_, tries, _) => 2 * tries + 1
    case TouchPut(_, _, tries, _) => 2 * tries
    case _ => 0
  }

  lemma AdvanceProgresses(cfg: Config, pc: Pc, w: World, f: Fault)
    requires !pc.Stop?
    ensures var next := Advance(cfg, pc, w, f).0;
      Stage(next) < Stage(pc) || (Stage(next) == Stage(pc) && Count(next) < Count(pc))
  {
    hide PutSloStatus, PutProm, CreatePrometheusRule, WithReady, InlineSli;
  }

  datatype PassEnd = PassEnd(outcome: Outcome, world: World, calls: nat)

  /** A whole pass from `pc`, the t-th call being the next. */
  function Pass(cfg: Config, pc: Pc, w: World, env: Environment, t: nat): PassEnd
    decreases Stage(pc), Count(pc)
  {
    if pc.Stop? then PassEnd(pc.outcome, w, t)
    else
      AdvanceProgresses(cfg, pc, env.disturb(t, w), env.fault(t));
      var (pc', w') := Advance(cfg, pc, env.disturb(t, w), env.fault(t));
      Pass(cfg, pc', w', env, t + 1)
  }
}
