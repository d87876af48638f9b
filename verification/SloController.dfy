/**
 The SLO controller as a step machine: finalizer, datasource, SLI, PrometheusRule, MimirRule and
 AlertManagerConfig in turn, at most one of them created per pass.
 */
module SloController {
  import opened Text
  import opened Selectors
  import opened Api
  import opened RuleCompiler
  import opened Conditions
  import opened MimirTranslation
  import opened ObjectStore
  import opened Cluster

  const SLO_FINALIZER := "finalizer.slo.osko.dev"

  const NO_PROM: PrometheusRule := Object(NO_META, [], ())

  datatype Pc =
    | GetSlo
    | Unfinalize(slo: Slo)
    | Finalize(slo: Slo)
    | GetSource(slo: Slo)
    | SourceMissing(slo: Slo)
    | GetSli(slo: Slo, source: Datasource, name: string)
    | GetInline(slo: Slo, source: Datasource, indicator: Indicator)
    | CreateInline(slo: Slo, source: Datasource, indicator: Indicator)
    | UpdateInline(slo: Slo, source: Datasource, indicator: Indicator, sli: Sli)
    | MarkFalse(slo: Slo, message: string, kind: ErrorKind)
    | GetProm(slo: Slo, source: Datasource, sli: Sli)
    | MakeProm(slo: Slo, prom: PrometheusRule)
    | PromFailed(slo: Slo, prom: PrometheusRule)
    | OwnProm(slo: Slo, prom: PrometheusRule)
    | MarkReady(slo: Slo)
    | GetRule(slo: Slo, source: Datasource, prom: PrometheusRule)
    | MakeRule(slo: Slo, rule: MimirRule)
    | RuleFailed(slo: Slo)
    | OwnRule(slo: Slo, rule: MimirRule)
    | ReadySlo(slo: Slo, rule: MimirRule)
    | ReadyRule(rule: MimirRule)
    | GetAlerting(slo: Slo)
    | MakeAlerting(slo: Slo)
    | OwnAlerting(slo: Slo, alerting: AlertManagerConfig)
    | Conclude(slo: Slo)
    | Stop(outcome: Outcome)

  // ----- Objects the controller builds -----

  function OwnerOf(slo: Slo): OwnerRef
  {
    OwnerRef("SLO", slo.meta.name, slo.meta.uid, false)
  }

  /** `SetOwnerReference`: replace the reference to the same owner, or add one. */
  function WithOwner(owners: seq<OwnerRef>, o: OwnerRef): seq<OwnerRef>
  {
    if owners == [] then [o]
    else if owners[0].kind == o.kind && owners[0].name == o.name then [o] + owners[1..]
    else [owners[0]] + WithOwner(owners[1..], o)
  }

  function Owned<S, T>(o: Object<S, T>, slo: Slo): Object<S, T>
  {
    o.(meta := o.meta.(owners := WithOwner(o.meta.owners, OwnerOf(slo))))
  }

  function InlineName(slo: Slo, indicator: Indicator): string
  {
    if indicator.name != "" then indicator.name else slo.meta.name + "-sli"
  }

  function NewInlineSli(slo: Slo, indicator: Indicator): Sli
  {
    Owned(Object(NO_META.(name := InlineName(slo, indicator), namespace := slo.meta.namespace),
      indicator.spec, ()), slo)
  }

  function NewAlerting(slo: Slo): AlertManagerConfig
  {
    Object(
      NO_META.(
        name := slo.meta.name + "-alerting",
        namespace := slo.meta.namespace,
        labels := map[
          "app.kubernetes.io/name" := "osko",
          "app.kubernetes.io/managed-by" := "osko-controller",
          "osko.dev/slo" := slo.meta.name],
        annotations := map["osko.dev/datasourceRef" := Get(slo.meta.annotations, "osko.dev/datasourceRef")]),
      SecretRef(slo.meta.name + "-alerting-config", slo.meta.namespace),
      ())
  }

  function Ready(slo: Slo, ready: string): Slo
  {
    slo.(status := slo.status.(ready := ready))
  }

  function WithReadyCondition(slo: Slo, status: string, message: string, now: int): Slo
  {
    slo.(status := WithCondition(slo.status, "Ready", status, message, now))
  }

  predicate WantsAlerting(slo: Slo)
  {
    Get(slo.meta.annotations, "osko.dev/magicAlerting") == "true"
  }

  // ----- Local work between calls -----

  function ExamineSlo(slo: Slo): Pc
  {
    if slo.meta.deleting then
      if SLO_FINALIZER in slo.meta.finalizers then Unfinalize(slo) else Stop(Settled)
    else if SLO_FINALIZER !in slo.meta.finalizers then Finalize(slo)
    else GetSource(slo)
  }

  function ChooseSli(slo: Slo, source: Datasource): Pc
  {
    if slo.spec.indicatorRef.Some? then GetSli(slo, source, slo.spec.indicatorRef.value)
    else if slo.spec.indicator.Some? then GetInline(slo, source, slo.spec.indicator.value)
    else MarkFalse(slo, "SLI Object not found", Permanent)
  }

  function InlineFailed(slo: Slo): Pc
  {
    MarkFalse(slo, "Failed to create inline SLI", Transient)
  }

  /** No PrometheusRule yet: compile one; an SLO without objectives makes the compiler panic. */
  function CompileProm(cfg: Config, slo: Slo, sli: Sli): Pc
  {
    match CreatePrometheusRule(cfg, slo, sli)
    case Success(p) => MakeProm(slo, p)
    case Failure(e) =>
      if e == NoObjectives then Stop(Failed(Crashed))
      else MarkFalse(slo, "Failed to create new Prometheus Rule", Transient)
  }

  function AfterRule(slo: Slo): Pc
  {
    if WantsAlerting(slo) then GetAlerting(slo) else Conclude(slo)
  }

  const RETRY := Stop(Failed(Transient))

  // ----- One call -----

  predicate Finalizing(pc: Pc)
  {
    pc.GetSlo? || pc.Unfinalize? || pc.Finalize?
  }

  predicate Resolving(pc: Pc)
  {
    pc.GetSource? || pc.SourceMissing? || pc.GetSli? || pc.GetInline? || pc.CreateInline? || pc.UpdateInline?
  }

  predicate MakingProm(pc: Pc)
  {
    pc.GetProm? || pc.MakeProm? || pc.PromFailed? || pc.OwnProm? || pc.MarkReady?
  }

  predicate MakingRule(pc: Pc)
  {
    pc.GetRule? || pc.MakeRule? || pc.RuleFailed? || pc.OwnRule? || pc.ReadySlo? || pc.ReadyRule?
  }

  predicate Concluding(pc: Pc)
  {
    pc.GetAlerting? || pc.MakeAlerting? || pc.OwnAlerting? || pc.Conclude? || pc.MarkFalse?
  }

  /** The finalizer goes on first, and off last. */
  function AdvanceFinalizing(cfg: Config, pc: Pc, w: World, f: Fault): (Pc, World)
  {
    match pc
    case GetSlo =>
      (match Read(w.slo, f)
       case Absent => Stop(Settled)
       case Unreadable => RETRY
       case Present(slo) => ExamineSlo(slo), w)
    case Unfinalize(slo) =>
      var (w', reply) := PutSlo(w, WithoutFinalizer(slo, SLO_FINALIZER), f);
      (Stop(if reply.Done? then Settled else Failed(Plain)), w')
    case Finalize(slo) =>
      var (w', reply) := PutSlo(w, WithFinalizer(slo, SLO_FINALIZER), f);
      (Stop(if reply.Done? then RequeueNow else Failed(Plain)), w')
    case _ => (pc, w)
  }

  /** Find the datasource, and find or write the SLI. */
  function AdvanceResolving(cfg: Config, pc: Pc, w: World, f: Fault): (Pc, World)
  {
    match pc
    case GetSource(slo) =>
      (match Read(Lookup(w.sources, Get(slo.meta.annotations, "osko.dev/datasourceRef")), f)
       case Absent => SourceMissing(slo)
       case Unreadable => RETRY
       case Present(ds) => ChooseSli(slo, ds), w)
    case SourceMissing(slo) =>
      var (w', reply) := PutSloStatus(w, Ready(slo, "False"), f);
      (Stop(Failed(if reply.Done? then DependencyNotReady else Transient)), w')
    case GetSli(slo, ds, name) =>
      (match Read(Lookup(w.slis, name), f)
       case Absent => MarkFalse(slo, "SLI Object not found", DependencyNotReady)
       case Unreadable => RETRY
       case Present(sli) => GetProm(slo, ds, sli), w)
    case GetInline(slo, ds, indicator) =>
      (match Read(Lookup(w.slis, InlineName(slo, indicator)), f)
       case Absent => CreateInline(slo, ds, indicator)
       case Unreadable => InlineFailed(slo)
       case Present(sli) =>
         if sli.spec == indicator.spec then GetProm(slo, ds, sli) else UpdateInline(slo, ds, indicator, sli), w)
    case CreateInline(slo, ds, indicator) =>
      var (w', reply) := CreateSli(w, NewInlineSli(slo, indicator), f);
      (if reply.Done? then GetProm(slo, ds, reply.obj) else InlineFailed(slo), w')
    case UpdateInline(slo, ds, indicator, sli) =>
      var (w', reply) := PutSli(w, sli.(spec := indicator.spec), f);
      (if reply.Done? then GetProm(slo, ds, reply.obj) else InlineFailed(slo), w')
    case _ => (pc, w)
  }

  /** Create the PrometheusRule once there is none. */
  function AdvanceMakingProm(cfg: Config, pc: Pc, w: World, f: Fault): (Pc, World)
  {
    match pc
    case GetProm(slo, ds, sli) =>
      (match Read(w.prom, f)
       case Absent => CompileProm(cfg, slo, sli)
       case Unreadable => GetRule(slo, ds, NO_PROM)  // taken for found
       case Present(p) => GetRule(slo, ds, p), w)
    case MakeProm(slo, p) =>
      var (w', reply) := CreateProm(w, p, f);
      (if reply.Done? then OwnProm(slo, reply.obj) else PromFailed(slo, p), w')
    case PromFailed(slo, p) =>
      var (w', reply) := PutPromStatus(w, p, f);
      (if reply.Done? then RETRY else MarkFalse(slo, "Failed to create Prometheus Rule", Transient), w')
    case OwnProm(slo, p) =>
      var (w', reply) := PutProm(w, Owned(p, slo), f);
      (if reply.Done? then MarkReady(slo) else Stop(Failed(Plain)), w')
    case MarkReady(slo) =>
      var (w', reply) := PutSloStatus(w, Ready(slo, "True"), f);
      (Stop(if reply.Done? then Settled else Failed(Plain)), w')
    case _ => (pc, w)
  }

  /** Create the MimirRule once there is none. */
  function AdvanceMakingRule(cfg: Config, pc: Pc, w: World, f: Fault): (Pc, World)
  {
    match pc
    case GetRule(slo, ds, p) =>
      (match Read(w.rule, f)
       case Absent => MakeRule(slo, NewMimirRule(slo, p, ds.spec))
       case Unreadable => AfterRule(slo)  // taken for found
       case Present(_) => AfterRule(slo), w)
    case MakeRule(slo, m) =>
      var (w', reply) := CreateRule(w, m, f);
      (if reply.Done? then OwnRule(slo, reply.obj) else RuleFailed(slo), w')
    case RuleFailed(slo) =>
      var (w', reply) := PutSloStatus(w, slo, f);
      (if reply.Done? then RETRY else MarkFalse(slo, "Failed to create Mimir Rule", Transient), w')
    case OwnRule(slo, m) =>
      var (w', reply) := PutRule(w, Owned(m, slo), f);
      (if reply.Done? then ReadySlo(slo, reply.obj) else RETRY, w')
    case ReadySlo(slo, m) =>
      var (w', reply) := PutSloStatus(w, Ready(slo, "True"), f);
      (if reply.Done? then ReadyRule(m) else RETRY, w')
    case ReadyRule(m) =>
      var (w', reply) := PutRuleStatus(w, m.(status := "True"), f);
      (if reply.Done? then Stop(Settled) else RETRY, w')
    case _ => (pc, w)
  }

  /** Create the AlertManagerConfig if wanted, and report. */
  function AdvanceConcluding(cfg: Config, pc: Pc, w: World, f: Fault): (Pc, World)
  {
    match pc
    case GetAlerting(slo) =>
      (match Read(w.alerting, f)
       case Absent => MakeAlerting(slo)
       case Unreadable => RETRY
       case Present(_) => Conclude(slo), w)
    case MakeAlerting(slo) =>
      var (w', reply) := CreateAlerting(w, NewAlerting(slo), f);
      (if reply.Done? then OwnAlerting(slo, reply.obj) else RETRY, w')
    case OwnAlerting(slo, a) =>
      var (w', reply) := PutAlerting(w, Owned(a, slo), f);
      (if reply.Done? then Conclude(slo) else RETRY, w')
    case Conclude(slo) =>
      var (w', reply) := PutSloStatus(w, WithReadyCondition(slo, "True", "PrometheusRule created", w.now), f);
      (if reply.Done? then Stop(Settled) else RETRY, w')
    case MarkFalse(slo, message, kind) =>
      var (w', reply) := PutSloStatus(w, WithReadyCondition(slo, "False", message, w.now), f);
      (Stop(Failed(if reply.Done? then kind else Transient)), w')
    case _ => (pc, w)
  }

  function Advance(cfg: Config, pc: Pc, w: World, f: Fault): (Pc, World)
  {
    if Finalizing(pc) then AdvanceFinalizing(cfg, pc, w, f)
    else if Resolving(pc) then AdvanceResolving(cfg, pc, w, f)
    else if MakingProm(pc) then AdvanceMakingProm(cfg, pc, w, f)
    else if MakingRule(pc) then AdvanceMakingRule(cfg, pc, w, f)
    else if Concluding(pc) then AdvanceConcluding(cfg, pc, w, f)
    else (pc, w)
  }

  // ----- A pass -----

  function Stage(pc: Pc): nat
  {
    match pc
    case GetSlo => 25
    case Unfinalize(_) => 24
    case Finalize(_) => 23
    case GetSource(_) => 22
    case SourceMissing(_) => 21
    case GetSli(_, _, _) => 20
    case GetInline(_, _, _) => 19
    case CreateInline(_, _, _) => 18
    case UpdateInline(_, _, _, _) => 17
    case GetProm(_, _, _) => 16
    case MakeProm(_, _) => 15
    case PromFailed(_, _) => 14
    case OwnProm(_, _) => 13
    case MarkReady(_) => 12
    case GetRule(_, _, _) => 11
    case MakeRule(_, _) => 10
    case RuleFailed(_) => 9
    case OwnRule(_, _) => 8
    case ReadySlo(_, _) => 7
    case ReadyRule(_) => 6
    case GetAlerting(_) => 5
    case MakeAlerting(_) => 4
    case OwnAlerting(_, _) => 3
    case Conclude(_) => 2
    case MarkFalse(_, _, _) => 1
    case Stop(_) => 0
  }

  lemma FinalizingProgresses(cfg: Config, pc: Pc, w: World, f: Fault)
    requires Finalizing(pc)
    ensures Stage(AdvanceFinalizing(cfg, pc, w, f).0) < Stage(pc)
  {
    hide PutSlo, PutSloStatus, CreateProm, PutProm, PutPromStatus, CreateRule, PutRule, PutRuleStatus,
      CreateAlerting, PutAlerting, CreateSli, PutSli, NewMimirRule, CreatePrometheusRule, NewAlerting, NewInlineSli,
      Owned, WithReadyCondition, WithFinalizer, WithoutFinalizer;
  }

  lemma ResolvingProgresses(cfg: Config, pc: Pc, w: World, f: Fault)
    requires Resolving(pc)
    ensures Stage(AdvanceResolving(cfg, pc, w, f).0) < Stage(pc)
  {
    hide PutSlo, PutSloStatus, CreateProm, PutProm, PutPromStatus, CreateRule, PutRule, PutRuleStatus,
      CreateAlerting, PutAlerting, CreateSli, PutSli, NewMimirRule, CreatePrometheusRule, NewAlerting, NewInlineSli,
      Owned, WithReadyCondition, WithFinalizer, WithoutFinalizer;
  }

  lemma MakingPromProgresses(cfg: Config, pc: Pc, w: World, f: Fault)
    requires MakingProm(pc)
    ensures Stage(AdvanceMakingProm(cfg, pc, w, f).0) < Stage(pc)
  {
    hide PutSlo, PutSloStatus, CreateProm, PutProm, PutPromStatus, CreateRule, PutRule, PutRuleStatus,
      CreateAlerting, PutAlerting, CreateSli, PutSli, NewMimirRule, CreatePrometheusRule, NewAlerting, NewInlineSli,
      Owned, WithReadyCondition, WithFinalizer, WithoutFinalizer;
  }

  lemma MakingRuleProgresses(cfg: Config, pc: Pc, w: World, f: Fault)
    requires MakingRule(pc)
    ensures Stage(AdvanceMakingRule(cfg, pc, w, f).0) < Stage(pc)
  {
    hide PutSlo, PutSloStatus, CreateProm, PutProm, PutPromStatus, CreateRule, PutRule, PutRuleStatus,
      CreateAlerting, PutAlerting, CreateSli, PutSli, NewMimirRule, CreatePrometheusRule, NewAlerting, NewInlineSli,
      Owned, WithReadyCondition, WithFinalizer, WithoutFinalizer;
  }

  lemma ConcludingProgresses(cfg: Config, pc: Pc, w: World, f: Fault)
    requires Concluding(pc)
    ensures Stage(AdvanceConcluding(cfg, pc, w, f).0) < Stage(pc)
  {
    hide PutSlo, PutSloStatus, CreateProm, PutProm, PutPromStatus, CreateRule, PutRule, PutRuleStatus,
      CreateAlerting, PutAlerting, CreateSli, PutSli, NewMimirRule, CreatePrometheusRule, NewAlerting, NewInlineSli,
      Owned, WithReadyCondition, WithFinalizer, WithoutFinalizer;
  }

  lemma AdvanceProgresses(cfg: Config, pc: Pc, w: World, f: Fault)
    requires !pc.Stop?
    ensures Stage(Advance(cfg, pc, w, f).0) < Stage(pc)
  {
    hide Stage, AdvanceFinalizing, AdvanceResolving, AdvanceMakingProm, AdvanceMakingRule, AdvanceConcluding;
    if Finalizing(pc) {
      FinalizingProgresses(cfg, pc, w, f);
    } else if Resolving(pc) {
      ResolvingProgresses(cfg, pc, w, f);
    } else if MakingProm(pc) {
      MakingPromProgresses(cfg, pc, w, f);
    } else if MakingRule(pc) {
      MakingRuleProgresses(cfg, pc, w, f);
    } else if Concluding(pc) {
      ConcludingProgresses(cfg, pc, w, f);
    }
  }

  datatype PassEnd = PassEnd(outcome: Outcome, world: World, calls: nat)

  /** A whole pass from `pc`, the t-th call being the next. */
  function Pass(cfg: Config, pc: Pc, w: World, env: Environment, t: nat): PassEnd
    decreases Stage(pc)
  {
    if pc.Stop? then PassEnd(pc.outcome, w, t)
    else
      AdvanceProgresses(cfg, pc, env.disturb(t, w), env.fault(t));
      var (pc', w') := Advance(cfg, pc, env.disturb(t, w), env.fault(t));
      Pass(cfg, pc', w', env, t + 1)
  }
}
