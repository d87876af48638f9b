/**
 Mimir servers and tenants stay apart: over whole joint runs the groups of a server and tenant change only
 if a stored MimirRule names it.
 */
module Tenants {
  import opened Text
  import opened Selectors
  import opened Api
  import opened RuleCompiler
  import opened MimirTranslation
  import opened ObjectStore
  import opened Cluster
  import SloController
  import PromController
  import opened MimirController
  import opened JointRuns

  /** A connection to another server or for another tenant. */
  predicate Apart(connection: Connection, client: Client)
  {
    connection.address != client.address || connection.targetTenant != client.tenant
  }

  /** The stored MimirRule, if any, is for another server or tenant. */
  predicate Foreign(w: World, client: Client)
  {
    w.rule.Some? ==> Apart(w.rule.value.spec.connection, client)
  }

  /** The MimirRule whose groups are being worked on is for another server or tenant. */
  predicate WorksElsewhere(pc: MimirController.Pc, client: Client)
  {
    pc.GetOwner? || pc.Pushing? || pc.Deleting? ==> Apart(pc.rule.spec.connection, client)
  }

  ghost predicate SameThere(w: World, v: World, client: Client)
  {
    forall place: Place | place.client == client ::
      && (place in v.ruler <==> place in w.ruler)
      && (place in w.ruler ==> v.ruler[place] == w.ruler[place])
  }

  lemma LocalWorkElsewhere(
    cfg: Config, p: PrometheusRule, m: MimirRule, slo: Slo, pushes: seq<PushedGroup>, names: seq<string>,
    client: Client)
    requires Apart(m.spec.connection, client)
    ensures WorksElsewhere(AfterPushing(p, m, slo, pushes), client)
    ensures WorksElsewhere(AfterOwners(cfg, p, m, slo), client)
    ensures WorksElsewhere(AfterDeleting(p, m, names), client)
    ensures WorksElsewhere(Examine(cfg, p, m), client)
  {
    hide NewMimirRule, ToMimirGroups, Pushes, Names, SloRefs, Apart;
  }

  lemma ReadingElsewhere(cfg: Config, pc: MimirController.Pc, w: World, f: Fault, client: Client)
    requires Reading(pc) && Foreign(w, client) && WorksElsewhere(pc, client)
    ensures var (pc', v) := AdvanceReading(cfg, pc, w, f); WorksElsewhere(pc', client) && v == w
  {
    hide AfterOwners, Examine, Apart;
    match pc
    case GetRule(p) =>
      if w.rule.Some? {
        LocalWorkElsewhere(cfg, p, w.rule.value, NO_SLO, [], [], client);
      }
    case GetOwner(p, m, _) =>
      LocalWorkElsewhere(cfg, p, m, NO_SLO, [], [], client);
      if w.slo.Some? {
        LocalWorkElsewhere(cfg, p, m, w.slo.value, [], [], client);
      }
    case GetProm =>
  }

  lemma GroupCallElsewhere(cfg: Config, pc: MimirController.Pc, w: World, f: Fault, client: Client)
    requires (pc.Pushing? || pc.Deleting?) && WorksElsewhere(pc, client)
    ensures var (pc', v) := MimirController.Advance(cfg, pc, w, f);
      WorksElsewhere(pc', client) && SameThere(w, v, client)
  {
    hide AfterPushing, AfterDeleting;
    match pc
    case Pushing(p, m, slo, pushes) =>
      LocalWorkElsewhere(cfg, p, m, slo, if pushes == [] then [] else pushes[1..], [], client);
    case Deleting(p, m, names) =>
      LocalWorkElsewhere(cfg, p, m, NO_SLO, [], if names == [] then [] else names[1..], client);
  }

  lemma OtherCallElsewhere(cfg: Config, pc: MimirController.Pc, w: World, f: Fault, client: Client)
    requires !Reading(pc) && !pc.Pushing? && !pc.Deleting?
    ensures var (pc', v) := MimirController.Advance(cfg, pc, w, f); WorksElsewhere(pc', client) && v.ruler == w.ruler
  {
    hide AdvanceReading, Attempt, NewMimirRule, WithFinalizer, WithoutFinalizer, Apart;
  }

  lemma RuleCallElsewhere(cfg: Config, pc: MimirController.Pc, w: World, f: Fault, client: Client)
    requires Foreign(w, client) && WorksElsewhere(pc, client)
    ensures var (pc', v) := MimirController.Advance(cfg, pc, w, f);
      WorksElsewhere(pc', client) && SameThere(w, v, client)
  {
    hide AdvanceReading, AdvanceReleasing, AdvanceGuarding, AdvanceOverwriting, WorksElsewhere, Foreign;
    if Reading(pc) {
      ReadingElsewhere(cfg, pc, w, f, client);
    } else if pc.Pushing? || pc.Deleting? {
      GroupCallElsewhere(cfg, pc, w, f, client);
    } else {
      OtherCallElsewhere(cfg, pc, w, f, client);
    }
  }

  /** The other controllers and users never touch Mimir. */
  lemma SloCallLeavesRuler(cfg: Config, pc: SloController.Pc, w: World, f: Fault)
    ensures SloController.Advance(cfg, pc, w, f).1.ruler == w.ruler
  {
    hide Attempt, Replaced, Created, StatusReplaced, NewMimirRule, CreatePrometheusRule, SloController.NewAlerting,
      SloController.NewInlineSli, SloController.WithReadyCondition, WithFinalizer, WithoutFinalizer,
      SloController.CompileProm, SloController.Owned, SloController.ExamineSlo, SloController.ChooseSli;
  }

  lemma PromCallLeavesRuler(cfg: Config, pc: PromController.Pc, w: World, f: Fault)
    ensures PromController.Advance(cfg, pc, w, f).1.ruler == w.ruler
  {
    hide Attempt, Replaced, StatusReplaced, PromController.ExamineProm, PromController.ChooseSli,
      PromController.Derive;
  }

  lemma UserLeavesRuler(key: Key, w: World, a: Action)
    ensures Act(key, w, a).ruler == w.ruler
  {
    hide Attempt, Replaced, DeletionRequested, Created;
  }

  lemma StepElsewhere(cfg: Config, key: Key, s: System, e: Event, client: Client)
    requires Foreign(s.w, client) && WorksElsewhere(s.rule, client)
    ensures var t := Step(cfg, key, s, e); WorksElsewhere(t.rule, client) && SameThere(s.w, t.w, client)
  {
    hide SloController.Advance, PromController.Advance, MimirController.Advance, Act, Apart;
    match e
    case Call(SloCtl, f) => SloCallLeavesRuler(cfg, s.slo, s.w, f);
    case Call(PromCtl, f) => PromCallLeavesRuler(cfg, s.prom, s.w, f);
    case Call(RuleCtl, f) => RuleCallElsewhere(cfg, s.rule, s.w, f, client);
    case User(a) => UserLeavesRuler(key, s.w, a);
    case _ =>
  }

  /**
   A server and tenant that no stored MimirRule names at any point of a run keeps exactly its groups,
   whatever else happens in the run, outside edits included.
   */
  lemma {:induction false} TenantsApart(cfg: Config, key: Key, s: System, events: seq<Event>, client: Client)
    requires Initial(s) && forall i | 0 <= i <= |events| :: Foreign(Run(cfg, key, s, events[..i]).w, client)
    ensures var t := Run(cfg, key, s, events); WorksElsewhere(t.rule, client) && SameThere(s.w, t.w, client)
  {
    hide Step, WorksElsewhere, Foreign, SameThere;
    if events == [] {
      IdleElsewhere(s, client);
    } else {
      var n := |events| - 1;
      var before := events[..n];
      forall i | 0 <= i <= n
        ensures Foreign(Run(cfg, key, s, before[..i]).w, client)
      {
        assert before[..i] == events[..i];
      }
      TenantsApart(cfg, key, s, before, client);
      var t := Run(cfg, key, s, before);
      StepElsewhere(cfg, key, t, events[n], client);
      SameChain(s.w, t.w, Run(cfg, key, s, events).w, client);
    }
  }

  lemma IdleElsewhere(s: System, client: Client)
    requires s.rule.Stop?
    ensures WorksElsewhere(s.rule, client) && SameThere(s.w, s.w, client)
  {
  }

  lemma SameChain(a: World, b: World, c: World, client: Client)
    requires SameThere(a, b, client) && SameThere(b, c, client)
    ensures SameThere(a, c, client)
  {
  }
}
