/**
 The three controllers of one SLO running together over the shared world.  A run is any list of
 events: a controller starts a pass, makes one call under any fault, or crashes; or a user acts.
 */
module JointRuns {
  import opened Text
  import opened Selectors
  import opened Api
  import opened RuleCompiler
  import opened MimirTranslation
  import opened ObjectStore
  import opened Cluster
  import SloController
  import PromController
  import MimirController

  datatype Key = Key(name: string, namespace: string)

  /**
   The world, the position of each controller, and a history: the uids SLOs of this name have had, of
   the SLIs the SLO controller created, and of the MimirRules that ever carried their finalizer.
   */
  datatype System = System(
    w: World,
    slo: SloController.Pc,
    prom: PromController.Pc,
    rule: MimirController.Pc,
    sloUids: set<nat>,
    inlineUids: set<nat>,
    guardedUids: set<nat>)

  datatype Controller = SloCtl | PromCtl | RuleCtl

  datatype Action =
    | CreateSlo(labels: Labels, annotations: Labels, spec: SloSpec)
    | EditSlo(labels: Labels, annotations: Labels, spec: SloSpec)
    | DeleteSlo
    | DeleteProm
    | DeleteRule
    | DeleteAlerting
    | WriteSli(name: string, owners: seq<OwnerRef>, sli: SliSpec)
    | DeleteSli(name: string)
    | WriteSource(name: string, connection: Connection)
    | DeleteSource(name: string)
    | EditProm(prom: PrometheusRule)
    | EditRule(rule: MimirRule)
    | PassTime(now: int)

  datatype Event = Start(c: Controller) | Call(c: Controller, f: Fault) | Crash(c: Controller) | User(a: Action)

  // ----- Users -----

  function NewSlo(key: Key, labels: Labels, annotations: Labels, spec: SloSpec): Slo
  {
    Object(NO_META.(name := key.name, namespace := key.namespace, labels := labels, annotations := annotations),
           spec, SloStatus([], ""))
  }

  function WrittenSli(w: World, name: string, owners: seq<OwnerRef>, spec: SliSpec): Sli
  {
    if name in w.slis then w.slis[name].(spec := spec, meta := w.slis[name].meta.(version := w.clock + 1))
    else Object(NO_META.(name := name, owners := owners, uid := w.clock + 1, version := w.clock + 1), spec, ())
  }

  function Act(key: Key, w: World, a: Action): World
  {
    match a
    case CreateSlo(labels, annotations, spec) =>
      var slot := Created(w.slo, NewSlo(key, labels, annotations, spec), w.clock).slot;
      w.(slo := slot, clock := Tick(w.slo, slot, w.clock))
    case EditSlo(labels, annotations, spec) =>
      if w.slo.None? then w
      else
        var o := w.slo.value;
        PutSlo(w, o.(meta := o.meta.(labels := labels, annotations := annotations), spec := spec), Fine).0
    case DeleteSlo =>
      var slot := DeletionRequested(w.slo, w.clock);
      w.(slo := slot, clock := Tick(w.slo, slot, w.clock))
    case DeleteProm =>
      var slot := DeletionRequested(w.prom, w.clock);
      w.(prom := slot, clock := Tick(w.prom, slot, w.clock))
    case DeleteRule =>
      var slot := DeletionRequested(w.rule, w.clock);
      w.(rule := slot, clock := Tick(w.rule, slot, w.clock))
    case DeleteAlerting =>
      var slot := DeletionRequested(w.alerting, w.clock);
      w.(alerting := slot, clock := Tick(w.alerting, slot, w.clock))
    case WriteSli(name, owners, sli) =>
      w.(slis := w.slis[name := WrittenSli(w, name, owners, sli)], clock := w.clock + 1)
    case DeleteSli(name) => w.(slis := w.slis - {name}, clock := w.clock + 1)
    case WriteSource(name, connection) =>
      w.(sources := w.sources[name := Object(NO_META.(name := name), connection, ())])
    case DeleteSource(name) => w.(sources := w.sources - {name})
    case EditProm(o) =>
      if w.prom.None? then w
      else PutProm(w, o.(meta := o.meta.(version := w.prom.value.meta.version)), Fine).0
    case EditRule(o) =>
      if w.rule.None? then w
      else PutRule(w, o.(meta := o.meta.(version := w.rule.value.meta.version)), Fine).0
    case PassTime(now) => w.(now := now)
  }

  /** Edits of the generated objects by others than the controllers. */
  predicate Intrusion(e: Event)
  {
    e.User? && (e.a.EditProm? || e.a.EditRule?)
  }

  // ----- Steps -----

  function SloUid(w: World): set<nat>
  {
    if w.slo.Some? then {w.slo.value.meta.uid} else {}
  }

  function NewSliUids(before: World, after: World): set<nat>
  {
    set n | n in after.slis && n !in before.slis :: after.slis[n].meta.uid
  }

  function GuardedUid(w: World): set<nat>
  {
    if w.rule.Some? && MimirController.RULE_FINALIZER in w.rule.value.meta.finalizers
    then {w.rule.value.meta.uid} else {}
  }

  /** The next world, with the history brought up to date. */
  function Moved(s: System, w: World): System
  {
    s.(w := w, sloUids := s.sloUids + SloUid(w), guardedUids := s.guardedUids + GuardedUid(w))
  }

  function Step(cfg: Config, key: Key, s: System, e: Event): System
  {
    match e
    case Start(SloCtl) => if s.slo.Stop? then s.(slo := SloController.GetSlo) else s
    case Start(PromCtl) => if s.prom.Stop? then s.(prom := PromController.GetProm) else s
    case Start(RuleCtl) => if s.rule.Stop? then s.(rule := MimirController.GetProm) else s
    case Call(SloCtl, f) =>
      var (pc, w) := SloController.Advance(cfg, s.slo, s.w, f);
      Moved(s, w).(slo := pc, inlineUids := s.inlineUids + NewSliUids(s.w, w))
    case Call(PromCtl, f) =>
      var (pc, w) := PromController.Advance(cfg, s.prom, s.w, f);
      Moved(s, w).(prom := pc)
    case Call(RuleCtl, f) =>
      var (pc, w) := MimirController.Advance(cfg, s.rule, s.w, f);
      Moved(s, w).(rule := pc)
    case Crash(SloCtl) => s.(slo := SloController.Stop(Failed(Crashed)))
    case Crash(PromCtl) => s.(prom := PromController.Stop(Failed(Crashed)))
    case Crash(RuleCtl) => s.(rule := MimirController.Stop(Failed(Crashed)))
    case User(a) => Moved(s, Act(key, s.w, a))
  }

  function Run(cfg: Config, key: Key, s: System, events: seq<Event>): System
  {
    if events == [] then s
    else Step(cfg, key, Run(cfg, key, s, events[..|events| - 1]), events[|events| - 1])
  }

  /** Idle controllers, no SLO and no children yet; any SLIs and datasources, any Mimir contents. */
  ghost predicate Initial(s: System)
  {
    && s.slo.Stop? && s.prom.Stop? && s.rule.Stop?
    && s.w.slo.None? && s.w.prom.None? && s.w.rule.None? && s.w.alerting.None?
    && (forall n | n in s.w.slis ::
          && s.w.slis[n].meta.name == n
          && 0 < s.w.slis[n].meta.version <= s.w.clock && s.w.slis[n].meta.uid <= s.w.clock)
    && s.sloUids == {} && s.inlineUids == {} && s.guardedUids == {}
  }

  lemma RunSnoc(cfg: Config, key: Key, s: System, events: seq<Event>, e: Event)
    ensures Run(cfg, key, s, events + [e]) == Step(cfg, key, Run(cfg, key, s, events), e)
  {
    assert (events + [e])[..|events|] == events;
  }
}
