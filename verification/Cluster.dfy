/**
 Everything the controllers of one SLO share: the objects at its key, the SLIs and datasources of its
 namespace, the Mimir ruler, a version clock and the time.
 */
module Cluster {
  import opened Text
  import opened Selectors
  import opened Api
  import opened RuleCompiler
  import opened MimirTranslation
  import opened ObjectStore

  datatype World = World(
    slo: Slot<SloSpec, SloStatus>,
    prom: Slot<seq<RuleGroup>, ()>,
    rule: Slot<MimirRuleSpec, string>,
    alerting: Slot<SecretRef, ()>,
    slis: map<string, Sli>,
    sources: map<string, Datasource>,
    ruler: Ruler,
    clock: nat,
    now: int)

  function Lookup<S, T>(m: map<string, Object<S, T>>, name: string): Slot<S, T>
  {
    if name in m then Some(m[name]) else None
  }

  function Stored<S, T>(m: map<string, Object<S, T>>, name: string, slot: Slot<S, T>): map<string, Object<S, T>>
  {
    match slot
    case None => m - {name}
    case Some(o) => m[name := o]
  }

  // ----- Calls -----

  /** An SLO is looked up by the name in an owner reference; this world holds one. */
  function ReadSloNamed(w: World, name: string, f: Fault): Found<Slo>
  {
    if w.slo.Some? && w.slo.value.meta.name == name then Read(w.slo, f) else Read(None, f)
  }

  function PutSlo(w: World, o: Slo, f: Fault): (World, Reply<Slo>)
  {
    var r := Attempt(w.slo, Replaced(w.slo, o, w.clock), f);
    (w.(slo := r.slot, clock := Tick(w.slo, r.slot, w.clock)), r.reply)
  }

  function PutSloStatus(w: World, o: Slo, f: Fault): (World, Reply<Slo>)
  {
    var r := Attempt(w.slo, StatusReplaced(w.slo, o, w.clock), f);
    (w.(slo := r.slot, clock := Tick(w.slo, r.slot, w.clock)), r.reply)
  }

  function CreateProm(w: World, o: PrometheusRule, f: Fault): (World, Reply<PrometheusRule>)
  {
    var r := Attempt(w.prom, Created(w.prom, o, w.clock), f);
    (w.(prom := r.slot, clock := Tick(w.prom, r.slot, w.clock)), r.reply)
  }

  function PutProm(w: World, o: PrometheusRule, f: Fault): (World, Reply<PrometheusRule>)
  {
    var r := Attempt(w.prom, Replaced(w.prom, o, w.clock), f);
    (w.(prom := r.slot, clock := Tick(w.prom, r.slot, w.clock)), r.reply)
  }

  function PutPromStatus(w: World, o: PrometheusRule, f: Fault): (World, Reply<PrometheusRule>)
  {
    var r := Attempt(w.prom, StatusReplaced(w.prom, o, w.clock), f);
    (w.(prom := r.slot, clock := Tick(w.prom, r.slot, w.clock)), r.reply)
  }

  function CreateRule(w: World, o: MimirRule, f: Fault): (World, Reply<MimirRule>)
  {
    var r := Attempt(w.rule, Created(w.rule, o, w.clock), f);
    (w.(rule := r.slot, clock := Tick(w.rule, r.slot, w.clock)), r.reply)
  }

  function PutRule(w: World, o: MimirRule, f: Fault): (World, Reply<MimirRule>)
  {
    var r := Attempt(w.rule, Replaced(w.rule, o, w.clock), f);
    (w.(rule := r.slot, clock := Tick(w.rule, r.slot, w.clock)), r.reply)
  }

  function PutRuleStatus(w: World, o: MimirRule, f: Fault): (World, Reply<MimirRule>)
  {
    var r := Attempt(w.rule, StatusReplaced(w.rule, o, w.clock), f);
    (w.(rule := r.slot, clock := Tick(w.rule, r.slot, w.clock)), r.reply)
  }

  function CreateAlerting(w: World, o: AlertManagerConfig, f: Fault): (World, Reply<AlertManagerConfig>)
  {
    var r := Attempt(w.alerting, Created(w.alerting, o, w.clock), f);
    (w.(alerting := r.slot, clock := Tick(w.alerting, r.slot, w.clock)), r.reply)
  }

  function PutAlerting(w: World, o: AlertManagerConfig, f: Fault): (World, Reply<AlertManagerConfig>)
  {
    var r := Attempt(w.alerting, Replaced(w.alerting, o, w.clock), f);
    (w.(alerting := r.slot, clock := Tick(w.alerting, r.slot, w.clock)), r.reply)
  }

  function CreateSli(w: World, o: Sli, f: Fault): (World, Reply<Sli>)
  {
    var slot := Lookup(w.slis, o.meta.name);
    var r := Attempt(slot, Created(slot, o, w.clock), f);
    (w.(slis := Stored(w.slis, o.meta.name, r.slot), clock := Tick(slot, r.slot, w.clock)), r.reply)
  }

  function PutSli(w: World, o: Sli, f: Fault): (World, Reply<Sli>)
  {
    var slot := Lookup(w.slis, o.meta.name);
    var r := Attempt(slot, Replaced(slot, o, w.clock), f);
    (w.(slis := Stored(w.slis, o.meta.name, r.slot), clock := Tick(slot, r.slot, w.clock)), r.reply)
  }

  /** Mimir calls answer only whether they succeeded. */
  function PushGroup(w: World, client: Client, g: PushedGroup, f: Fault): (World, bool)
  {
    (if f == Dropped then w else w.(ruler := w.ruler[Place(client, g.name) := g]), f == Fine)
  }

  function DeleteGroup(w: World, client: Client, name: string, f: Fault): (World, bool)
  {
    (if f == Dropped then w else w.(ruler := w.ruler - {Place(client, name)}), f == Fine)
  }

  // ----- Environments -----

  /** How each call fares, and what everyone else does to the world just before it. */
  datatype Environment = Environment(fault: nat -> Fault, disturb: (nat, World) -> World)

  /** No faults and nobody else. */
  const CALM := Environment((t: nat) => Fine, (t: nat, w: World) => w)

  datatype ErrorKind = Transient | DependencyNotReady | Permanent | Plain | Crashed

  /** How a pass ends: nothing more to do, requeued at once or after the usual period, or an error. */
  datatype Outcome = Settled | RequeueNow | RequeueLater | Failed(kind: ErrorKind)

  /** `retry.DefaultRetry` allows this many attempts on conflicts. */
  const ATTEMPTS: nat := 5
}
