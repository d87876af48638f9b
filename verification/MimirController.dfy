/**
 The MimirRule controller as a step machine: each step makes one API call and does the local work up
 to the next call.  The controller's position carries the objects it holds in memory.
 */
module MimirController {
  import opened Text
  import opened Api
  import opened RuleCompiler
  import opened MimirTranslation
  import opened ObjectStore
  import opened Cluster

  const RULE_FINALIZER := "finalizer.osko.dev/mimir"
  const PROM_FINALIZER := "finalizer.osko.dev/prometheusrule"

  datatype Pc =
    | GetProm
    | GetRule(prom: PrometheusRule)
    // deletion
    | Deleting(prom: PrometheusRule, rule: MimirRule, names: seq<string>)
    | ReleaseRuleGet(prom: PrometheusRule, tries: nat)
    | ReleaseRulePut(prom: PrometheusRule, rule: MimirRule, tries: nat)
    | ReleasePromGet(tries: nat)
    | ReleasePromPut(prom: PrometheusRule, tries: nat)
    // reconciliation
    | GetOwner(prom: PrometheusRule, rule: MimirRule, refs: seq<OwnerRef>)
    | Pushing(prom: PrometheusRule, rule: MimirRule, slo: Slo, pushes: seq<PushedGroup>)
    | GuardRuleGet(prom: PrometheusRule, slo: Slo, tries: nat)
    | GuardRulePut(prom: PrometheusRule, slo: Slo, rule: MimirRule, tries: nat)
    | GuardPromGet(rule: MimirRule, slo: Slo, tries: nat)
    | GuardPromPut(rule: MimirRule, slo: Slo, prom: PrometheusRule, tries: nat)
    | OverwriteGet(derived: MimirRule, rule: MimirRule, tries: nat)
    | OverwritePut(derived: MimirRule, rule: MimirRule, tries: nat)
    | MarkFailed(rule: MimirRule)
    | MarkReadyGet(tries: nat)
    | MarkReadyPut(rule: MimirRule, tries: nat)
    | Stop(outcome: Outcome)

  // ----- Local work between calls -----

  function AfterDeleting(prom: PrometheusRule, rule: MimirRule, names: seq<string>): Pc
  {
    if names != [] then Deleting(prom, rule, names)
    else if RULE_FINALIZER in rule.meta.finalizers then ReleaseRuleGet(prom, ATTEMPTS)
    else AfterRelease(prom)
  }

  function AfterRelease(prom: PrometheusRule): Pc
  {
    if PROM_FINALIZER in prom.meta.finalizers then ReleasePromGet(ATTEMPTS) else Stop(Settled)
  }

  /** The owner references still to look up. */
  function SloRefs(refs: seq<OwnerRef>): seq<OwnerRef>
  {
    if refs == [] then []
    else (if refs[0].kind == "SLO" then [refs[0]] else []) + SloRefs(refs[1..])
  }

  /** Look up the owners among `refs`, the last one found so far being `slo`. */
  function Owners(cfg: Config, prom: PrometheusRule, rule: MimirRule, refs: seq<OwnerRef>, slo: Slo): Pc
  {
    if SloRefs(refs) != [] then GetOwner(prom, rule, SloRefs(refs)) else AfterOwners(cfg, prom, rule, slo)
  }

  function AfterOwners(cfg: Config, prom: PrometheusRule, rule: MimirRule, slo: Slo): Pc
  {
    AfterPushing(prom, rule, slo, Pushes(cfg, ToMimirGroups(prom.spec, rule.spec.connection)))
  }

  function AfterPushing(prom: PrometheusRule, rule: MimirRule, slo: Slo, pushes: seq<PushedGroup>): Pc
  {
    if pushes != [] then Pushing(prom, rule, slo, pushes)
    else if RULE_FINALIZER in rule.meta.finalizers then AfterRuleGuard(prom, rule, slo)
    else GuardRuleGet(prom, slo, ATTEMPTS)
  }

  function AfterRuleGuard(prom: PrometheusRule, rule: MimirRule, slo: Slo): Pc
  {
    if PROM_FINALIZER in prom.meta.finalizers then AfterGuards(prom, rule, slo) else GuardPromGet(rule, slo, ATTEMPTS)
  }

  function AfterGuards(prom: PrometheusRule, rule: MimirRule, slo: Slo): Pc
  {
    var derived := NewMimirRule(slo, prom, rule.spec.connection);
    if rule.spec == derived.spec then Stop(RequeueLater) else OverwriteGet(derived, rule, ATTEMPTS)
  }

  /** Another attempt after a conflict, while any are left. */
  function Again(tries: nat, conflict: bool, retry: Pc, giveUp: Pc): Pc
  {
    if conflict && tries > 1 then retry else giveUp
  }

  const RETRY := Stop(Failed(Transient))

  // ----- One call -----

  predicate Reading(pc: Pc)
  {
    pc.GetProm? || pc.GetRule? || pc.GetOwner?
  }

  predicate Releasing(pc: Pc)
  {
    pc.Deleting? || pc.ReleaseRuleGet? || pc.ReleaseRulePut? || pc.ReleasePromGet? || pc.ReleasePromPut?
  }

  predicate Guarding(pc: Pc)
  {
    pc.Pushing? || pc.GuardRuleGet? || pc.GuardRulePut? || pc.GuardPromGet? || pc.GuardPromPut?
  }

  predicate Overwriting(pc: Pc)
  {
    pc.OverwriteGet? || pc.OverwritePut? || pc.MarkFailed? || pc.MarkReadyGet? || pc.MarkReadyPut?
  }

  /** Read the two rule objects and the owner. */
  function AdvanceReading(cfg: Config, pc: Pc, w: World, f: Fault): (Pc, World)
  {
    match pc
    case GetProm =>
      (match Read(w.prom, f)
       case Absent => Stop(Settled)
       case Unreadable => RETRY
       case Present(p) => GetRule(p), w)
    case GetRule(p) =>
      (match Read(w.rule, f)
       case Absent => Stop(Settled)
       case Unreadable => RETRY
       case Present(m) => Examine(cfg, p, m), w)
    case GetOwner(p, m, refs) =>
      if refs == [] then (AfterOwners(cfg, p, m, NO_SLO), w)
      else
        (match ReadSloNamed(w, refs[0].name, f)
         case Absent => RETRY
         case Unreadable => RETRY
         case Present(slo) => if |refs| > 1 then GetOwner(p, m, refs[1..]) else AfterOwners(cfg, p, m, slo), w)
    case _ => (pc, w)
  }

  /** Take the groups out of Mimir, then the finalizers off. */
  function AdvanceReleasing(cfg: Config, pc: Pc, w: World, f: Fault): (Pc, World)
  {
    match pc
    case Deleting(p, m, names) =>
      if names == [] then (AfterDeleting(p, m, []), w)
      else
        var (w', ok) := DeleteGroup(w, ClientOf(m.spec.connection), names[0], f);
        (if ok then AfterDeleting(p, m, names[1..]) else RETRY, w')
    case ReleaseRuleGet(p, tries) =>
      (match Read(w.rule, f)
       case Absent => RETRY
       case Unreadable => RETRY
       case Present(m) => ReleaseRulePut(p, m, tries), w)
    case ReleaseRulePut(p, m, tries) =>
      var (w', reply) := PutRule(w, WithoutFinalizer(m, RULE_FINALIZER), f);
      (if reply.Done? then AfterRelease(p)
       else Again(tries, reply.Conflict?, ReleaseRuleGet(p, Less1(tries)), RETRY), w')
    case ReleasePromGet(tries) =>
      (match Read(w.prom, f)
       case Absent => RETRY
       case Unreadable => RETRY
       case Present(p) => ReleasePromPut(p, tries), w)
    case ReleasePromPut(p, tries) =>
      var (w', reply) := PutProm(w, WithoutFinalizer(p, PROM_FINALIZER), f);
      (if reply.Done? then Stop(Settled) else Again(tries, reply.Conflict?, ReleasePromGet(Less1(tries)), RETRY), w')
    case _ => (pc, w)
  }

  /** Put the groups into Mimir, then the finalizers on. */
  function AdvanceGuarding(cfg: Config, pc: Pc, w: World, f: Fault): (Pc, World)
  {
    match pc
    case Pushing(p, m, slo, pushes) =>
      if pushes == [] then (AfterPushing(p, m, slo, []), w)
      else
        var (w', ok) := PushGroup(w, ClientOf(m.spec.connection), pushes[0], f);
        (if ok then AfterPushing(p, m, slo, pushes[1..]) else RETRY, w')
    case GuardRuleGet(p, slo, tries) =>
      (match Read(w.rule, f)
       case Absent => RETRY
       case Unreadable => RETRY
       case Present(m) =>
         if RULE_FINALIZER in m.meta.finalizers then AfterRuleGuard(p, m, slo) else GuardRulePut(p, slo, m, tries), w)
    case GuardRulePut(p, slo, m, tries) =>
      var (w', reply) := PutRule(w, WithFinalizer(m, RULE_FINALIZER), f);
      (if reply.Done? then AfterRuleGuard(p, reply.obj, slo)
       else Again(tries, reply.Conflict?, GuardRuleGet(p, slo, Less1(tries)), RETRY), w')
    case GuardPromGet(m, slo, tries) =>
      (match Read(w.prom, f)
       case Absent => RETRY
       case Unreadable => RETRY
       case Present(p) =>
         if PROM_FINALIZER in p.meta.finalizers then AfterGuards(p, m, slo) else GuardPromPut(m, slo, p, tries), w)
    case GuardPromPut(m, slo, p, tries) =>
      var (w', reply) := PutProm(w, WithFinalizer(p, PROM_FINALIZER), f);
      (if reply.Done? then AfterGuards(reply.obj, m, slo)
       else Again(tries, reply.Conflict?, GuardPromGet(m, slo, Less1(tries)), RETRY), w')
    case _ => (pc, w)
  }

  /** Write the derived MimirRule over the stored one, and report. */
  function AdvanceOverwriting(cfg: Config, pc: Pc, w: World, f: Fault): (Pc, World)
  {
    match pc
    case OverwriteGet(derived, m, tries) =>
      (match Read(w.rule, f)
       case Absent => MarkFailed(m)
       case Unreadable => MarkFailed(m)
       case Present(m') => OverwritePut(derived, m', tries), w)
    case OverwritePut(derived, m, tries) =>
      var (w', reply) := PutRule(w, derived.(meta := derived.meta.(version := m.meta.version)), f);
      (if reply.Done? then MarkReadyGet(ATTEMPTS)
       else Again(tries, reply.Conflict?, OverwriteGet(derived, m, Less1(tries)), MarkFailed(m)), w')
    case MarkFailed(m) =>
      var (w', reply) := PutRuleStatus(w, m.(status := "False"), f);
      (RETRY, w')
    case MarkReadyGet(tries) =>
      (match Read(w.rule, f)
       case Absent => RETRY
       case Unreadable => RETRY
       case Present(m) => MarkReadyPut(m, tries), w)
    case MarkReadyPut(m, tries) =>
      var (w', reply) := PutRuleStatus(w, m.(status := "True"), f);
      (if reply.Done? then Stop(RequeueLater)
       else Again(tries, reply.Conflict?, MarkReadyGet(Less1(tries)), RETRY), w')
    case _ => (pc, w)
  }

  function Advance(cfg: Config, pc: Pc, w: World, f: Fault): (Pc, World)
  {
    if Reading(pc) then AdvanceReading(cfg, pc, w, f)
    else if Releasing(pc) then AdvanceReleasing(cfg, pc, w, f)
    else if Guarding(pc) then AdvanceGuarding(cfg, pc, w, f)
    else if Overwriting(pc) then AdvanceOverwriting(cfg, pc, w, f)
    else (pc, w)
  }

  function Less1(tries: nat): nat
  {
    if tries == 0 then 0 else tries - 1
  }

  /** What to do with the MimirRule just read: clean up if it is being deleted, otherwise bring Mimir up to date. */
  function Examine(cfg: Config, p: PrometheusRule, m: MimirRule): Pc
  {
    if !cfg.validAddress(m.spec.connection.address) then RETRY
    else if m.meta.deleting then AfterDeleting(p, m, Names(ToMimirGroups(p.spec, m.spec.connection)))
    else
      Owners(cfg, p, m, m.meta.owners, NO_SLO)
  }

  // ----- Termination of a pass -----

  function Stage(pc: Pc): nat
  {
    match pc
    case GetProm => 20
    case GetRule(_) => 19
    case Deleting(_, _, _) => 18
    case ReleaseRuleGet(_, _) => 17
    case ReleaseRulePut(_, _, _) => 17
    case ReleasePromGet(_) => 16
    case ReleasePromPut(_, _) => 16
    case GetOwner(_, _, _) => 15
    case Pushing(_, _, _, _) => 14
    case GuardRuleGet(_, _, _) => 13
    case GuardRulePut(_, _, _, _) => 13
    case GuardPromGet(_, _, _) => 12
    case GuardPromPut(_, _, _, _) => 12
    case OverwriteGet(_, _, _) => 11
    case OverwritePut(_, _, _) => 11
    case MarkReadyGet(_) => 10
    case MarkReadyPut(_, _) => 10
    case MarkFailed(_) => 1
    case Stop(_) => 0
  }

  function Count(pc: Pc): nat
  {
    match pc
    case GetProm => 0
    case GetRule(_) => 0
    case Deleting(_, _, names) => |names|
    case ReleaseRuleGet(_, tries) => 2 * tries + 1
    case ReleaseRulePut(_, _, tries) => 2 * tries
    case ReleasePromGet(tries) => 2 * tries + 1
    case ReleasePromPut(_, tries) => 2 * tries
    case GetOwner(_, _, refs) => |refs|
    case Pushing(_, _, _, pushes) => |pushes|
    case GuardRuleGet(_, _, tries) => 2 * tries + 1
    case GuardRulePut(_, _, _, tries) => 2 * tries
    case GuardPromGet(_, _, tries) => 2 * tries + 1
    case GuardPromPut(_, _, _, tries) => 2 * tries
    case OverwriteGet(_, _, tries) => 2 * tries + 1
    case OverwritePut(_, _, tries) => 2 * tries
    case MarkReadyGet(tries) => 2 * tries + 1
    case MarkReadyPut(_, tries) => 2 * tries
    case MarkFailed(_) => 0
    case Stop(_) => 0
  }

  lemma ReadingProgresses(cfg: Config, pc: Pc, w: World, f: Fault)
    requires Reading(pc)
    ensures var next := AdvanceReading(cfg, pc, w, f).0;
      Stage(next) < Stage(pc) || (Stage(next) == Stage(pc) && Count(next) < Count(pc))
  {
    hide PutRule, PutProm, PutRuleStatus, PushGroup, DeleteGroup, NewMimirRule, Pushes, ToMimirGroups, Names,
      SloRefs, WithFinalizer, WithoutFinalizer;
  }

  lemma ReleasingProgresses(cfg: Config, pc: Pc, w: World, f: Fault)
    requires Releasing(pc)
    ensures var next := AdvanceReleasing(cfg, pc, w, f).0;
      Stage(next) < Stage(pc) || (Stage(next) == Stage(pc) && Count(next) < Count(pc))
  {
    hide PutRule, PutProm, PutRuleStatus, PushGroup, DeleteGroup, NewMimirRule, Pushes, ToMimirGroups, Names,
      SloRefs, WithFinalizer, WithoutFinalizer;
  }

  lemma GuardingProgresses(cfg: Config, pc: Pc, w: World, f: Fault)
    requires Guarding(pc)
    ensures var next := AdvanceGuarding(cfg, pc, w, f).0;
      Stage(next) < Stage(pc) || (Stage(next) == Stage(pc) && Count(next) < Count(pc))
  {
    hide PutRule, PutProm, PutRuleStatus, PushGroup, DeleteGroup, NewMimirRule, Pushes, ToMimirGroups, Names,
      SloRefs, WithFinalizer, WithoutFinalizer;
  }

  lemma OverwritingProgresses(cfg: Config, pc: Pc, w: World, f: Fault)
    requires Overwriting(pc)
    ensures var next := AdvanceOverwriting(cfg, pc, w, f).0;
      Stage(next) < Stage(pc) || (Stage(next) == Stage(pc) && Count(next) < Count(pc))
  {
    hide PutRule, PutProm, PutRuleStatus, PushGroup, DeleteGroup, NewMimirRule, Pushes, ToMimirGroups, Names,
      SloRefs, WithFinalizer, WithoutFinalizer;
  }

  lemma AdvanceProgresses(cfg: Config, pc: Pc, w: World, f: Fault)
    requires !pc.Stop?
    ensures var next := Advance(cfg, pc, w, f).0;
      Stage(next) < Stage(pc) || (Stage(next) == Stage(pc) && Count(next) < Count(pc))
  {
    hide Stage, Count, AdvanceReading, AdvanceReleasing, AdvanceGuarding, AdvanceOverwriting;
    if Reading(pc) {
      ReadingProgresses(cfg, pc, w, f);
    } else if Releasing(pc) {
      ReleasingProgresses(cfg, pc, w, f);
    } else if Guarding(pc) {
      GuardingProgresses(cfg, pc, w, f);
    } else if Overwriting(pc) {
      OverwritingProgresses(cfg, pc, w, f);
    }
  }

  datatype PassEnd = PassEnd(outcome: Outcome, world: World, calls: nat)

  /** A whole pass from `pc`, the t-th call being the next. */
  function Pass(cfg: Config, pc: Pc, w: World, env: Environment, t: nat): PassEnd
    decreases Stage(pc), Count(pc)
  {
    if pc.Stop? then PassEnd(pc.outcome, w, t)
    else
      AdvanceProgresses(cfg, pc, env.disturb(t, w), env.fault(t));
      var (pc', w') := Advance(cfg, pc, env.disturb(t, w), env.fault(t));
      Pass(cfg, pc', w', env, t + 1)
  }
}
