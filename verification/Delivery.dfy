/**
 From an SLO to Mimir: four failure-free passes of the SLO controller followed by two of the MimirRule
 controller put every rule the compiler emits for the SLO into Mimir, text, labels and duration included.
 */
module Delivery {
  import opened Text
  import opened Selectors
  import opened Api
  import opened RuleCompiler
  import opened RuleInputs
  import opened MimirTranslation
  import opened ObjectStore
  import opened Cluster
  import opened SloController
  import opened SloConvergence
  import MimirController
  import MimirConvergence

  function Source(w: World): Connection
    requires w.slo.Some? && Get(w.slo.value.meta.annotations, "osko.dev/datasourceRef") in w.sources
  {
    w.sources[Get(w.slo.value.meta.annotations, "osko.dev/datasourceRef")].spec
  }

  /** The SLO and its surroundings call for these groups at this datasource. */
  ghost predicate CallsFor(cfg: Config, w: World, groups: seq<RuleGroup>, connection: Connection)
  {
    && SloConvergence.Live(cfg, w)
    && RuleGroups(cfg, w.slo.value, UsedSli(w, w.slo.value)) == Success(groups) && Source(w) == connection
  }

  /** What has been made so far is what is called for. */
  ghost predicate OnTheWay(cfg: Config, w: World, groups: seq<RuleGroup>, connection: Connection)
  {
    && CallsFor(cfg, w, groups, connection)
    && (w.prom.Some? ==> w.prom.value.spec == groups && !w.prom.value.meta.deleting)
    && (w.rule.Some? ==>
          && w.rule.value.spec == MimirRuleSpec(connection, ToMimirGroups(groups, connection))
          && !w.rule.value.meta.deleting
          && |w.rule.value.meta.owners| == 1 && w.rule.value.meta.owners[0].kind == "SLO"
          && w.rule.value.meta.owners[0].name == w.slo.value.meta.name)
  }

  /** Only the bookkeeping of the SLO object moved. */
  predicate SameSlo(a: Slo, b: Slo)
  {
    b == a.(status := b.status, meta := a.meta.(finalizers := b.meta.finalizers, version := b.meta.version))
  }

  lemma StillCallsFor(cfg: Config, w: World, v: World, groups: seq<RuleGroup>, connection: Connection)
    requires CallsFor(cfg, w, groups, connection) && SloConvergence.Live(cfg, v)
    requires v.slo.Some? && SameSlo(w.slo.value, v.slo.value) && v.sources == w.sources
    requires !Inline(w.slo.value) ==> v.slis == w.slis
    ensures CallsFor(cfg, v, groups, connection)
  {
    hide RuleGroups, InlineName, SloConvergence.Compiles;
    var a, b := w.slo.value, v.slo.value;
    SameSliName(a, b);
    SameRuleGroups(cfg, a, b, UsedSli(w, a), UsedSli(v, b));
  }

  lemma PassOnTheWay(cfg: Config, w: World, groups: seq<RuleGroup>, connection: Connection)
    requires OnTheWay(cfg, w, groups, connection) && (w.prom.None? ==> w.rule.None?)
    ensures var v := SloConvergence.Run(cfg, GetSlo, w).1;
      OnTheWay(cfg, v, groups, connection) && (v.prom.None? ==> v.rule.None?)
  {
    hide RuleGroups, SloConvergence.Run, SloConvergence.Live, InlineStored, ToMimirGroups, Conditions.ReadyTrue,
      UsedSli;
    var v := SloConvergence.Run(cfg, GetSlo, w).1;
    LiveSlo(cfg, w);
    if SLO_FINALIZER !in w.slo.value.meta.finalizers {
      FinalizerPass(cfg, w);
    } else if w.prom.None? {
      PromPass(cfg, w);
    } else if w.rule.None? {
      RulePass(cfg, w);
    } else {
      LastPass(cfg, w);
    }
    StillCallsFor(cfg, w, v, groups, connection);
  }

  lemma {:induction false} PassesOnTheWay(
    cfg: Config, w: World, times: nat -> int, n: nat, groups: seq<RuleGroup>, connection: Connection)
    requires OnTheWay(cfg, w, groups, connection) && (w.prom.None? ==> w.rule.None?)
    ensures var v := SloConvergence.Passes(cfg, w, times, n);
      OnTheWay(cfg, v, groups, connection) && (v.prom.None? ==> v.rule.None?)
  {
    hide OnTheWay, SloConvergence.Run;
    if n > 0 {
      PassesOnTheWay(cfg, w, times, n - 1, groups, connection);
      var v := SloConvergence.Passes(cfg, w, times, n - 1);
      Later(cfg, v, times(n), groups, connection);
      PassOnTheWay(cfg, v.(now := times(n)), groups, connection);
    }
  }

  lemma Later(cfg: Config, w: World, now: int, groups: seq<RuleGroup>, connection: Connection)
    requires OnTheWay(cfg, w, groups, connection)
    ensures OnTheWay(cfg, w.(now := now), groups, connection)
  {
    hide RuleGroups, SloConvergence.Live, ToMimirGroups;
    TimeIrrelevant(cfg, w, now);
    LiveSlo(cfg, w);
    StillCallsFor(cfg, w, w.(now := now), groups, connection);
  }

  // ----- Into Mimir -----

  /** The groups of a compiled SLO, one push each and no name twice. */
  lemma {:induction false} PushesInOrder(cfg: Config, groups: seq<MimirGroup>)
    requires forall g | g in groups :: ToPushed(cfg, g).Some?
    ensures |Pushes(cfg, groups)| == |groups|
    ensures forall i | 0 <= i < |groups| :: Pushes(cfg, groups)[i] == ToPushed(cfg, groups[i]).value
  {
    hide ToPushed;
    if groups != [] {
      assert groups == [groups[0]] + groups[1..];
      PushesInOrder(cfg, groups[1..]);
    }
  }

  lemma CompiledPushes(
    cfg: Config, mrs: MonitoringRuleSet, budget: real, connection: Connection)
    requires mrs.slo.spec.targets != [] && cfg.parseDuration("5m").Some?
    ensures var groups := ToMimirGroups(mrs.Groups(cfg, budget), connection);
      && (forall g | g in groups :: ToPushed(cfg, g).Some?)
      && MimirConvergence.NamesDistinct(Pushes(cfg, groups))
  {
    hide MonitoringRuleSet.Groups, ToPushed, Pushes, ToMimirGroup;
    var source := mrs.Groups(cfg, budget);
    var groups := ToMimirGroups(source, connection);
    forall i | 0 <= i < |groups|
      ensures ToPushed(cfg, groups[i]).Some? && ToPushed(cfg, groups[i]).value.name == source[i].name
      ensures |source| <= 7 && source[i].name == mrs.slo.meta.name + SUFFIXES[i]
    {
      CompiledGroupsPushed(mrs, cfg, budget, connection, i);
      GroupNames(mrs, cfg, budget, i);
    }
    PushesInOrder(cfg, groups);
    forall i, j | 0 <= i < j < |groups|
      ensures Pushes(cfg, groups)[i].name != Pushes(cfg, groups)[j].name
    {
      GroupNames(mrs, cfg, budget, j);
      GroupNameInjective(mrs.slo.meta.name, i, mrs.slo.meta.name, j);
    }
  }

  /** Mimir holds the rule, word for word. */
  ghost predicate Delivered(cfg: Config, ruler: Ruler, client: Client, group: RuleGroup, i: int)
    requires 0 <= i < |group.rules|
  {
    var place := Place(client, group.name);
    && place in ruler && |ruler[place].nodes| == |group.rules|
    && MimirTranslation.SameRule(cfg, group.rules[i], ruler[place].nodes[i])
  }

  lemma CompiledLive(cfg: Config, w: World, groups: seq<RuleGroup>, connection: Connection)
    requires OnTheWay(cfg, w, groups, connection) && w.prom.Some? && w.rule.Some?
    requires cfg.validAddress(connection.address) && cfg.parseDuration("5m").Some?
    ensures MimirConvergence.Live(cfg, w)
    ensures MimirConvergence.Wanted(cfg, w) == Pushes(cfg, ToMimirGroups(groups, connection))
    ensures MimirConvergence.Here(w) == Client(connection.address, connection.targetTenant)
  {
    hide SloConvergence.Live, ToMimirGroups, Pushes, MonitoringRuleSet.Groups, UsedSli, ToPushed;
    LiveSlo(cfg, w);
    var slo := w.slo.value;
    var mrs := MonitoringRuleSet(slo, UsedSli(w, slo), BaseWindow(cfg, slo));
    CompiledPushes(cfg, mrs, 1.0 - mrs.CheckedTarget(cfg).value, connection);
    assert MimirController.SloRefs(w.rule.value.meta.owners) == w.rule.value.meta.owners;
  }

  lemma HeldRules(cfg: Config, w: World, groups: seq<RuleGroup>, connection: Connection, ruler: Ruler, g: int, i: int)
    requires CallsFor(cfg, w, groups, connection) && cfg.parseDuration("5m").Some?
    requires MimirConvergence.Holding(
      ruler, Client(connection.address, connection.targetTenant), Pushes(cfg, ToMimirGroups(groups, connection)))
    requires 0 <= g < |groups| && 0 <= i < |groups[g].rules|
    ensures Delivered(cfg, ruler, Client(connection.address, connection.targetTenant), groups[g], i)
  {
    hide SloConvergence.Live, Pushes, MonitoringRuleSet.Groups, UsedSli, ToPushed, MimirTranslation.SameRule,
      ToMimirGroup;
    LiveSlo(cfg, w);
    var slo := w.slo.value;
    var mrs := MonitoringRuleSet(slo, UsedSli(w, slo), BaseWindow(cfg, slo));
    var budget := 1.0 - mrs.CheckedTarget(cfg).value;
    CompiledPushes(cfg, mrs, budget, connection);
    CompiledGroupsPushed(mrs, cfg, budget, connection, g);
    var mimir := ToMimirGroups(groups, connection);
    PushesInOrder(cfg, mimir);
    assert Pushes(cfg, mimir)[g] == ToPushed(cfg, ToMimirGroup(groups[g], connection)).value;
  }

  /** The pushes the SLO calls for are all in Mimir in the end. */
  lemma NewSloHolds(cfg: Config, w: World, times: nat -> int, groups: seq<RuleGroup>, connection: Connection)
    requires CallsFor(cfg, w, groups, connection) && w.prom.None? && w.rule.None?
    requires cfg.validAddress(connection.address) && cfg.parseDuration("5m").Some?
    ensures var done := MimirConvergence.Passes(cfg, SloConvergence.Passes(cfg, w, times, 4), 2);
      MimirConvergence.Holding(
        done.ruler, Client(connection.address, connection.targetTenant), Pushes(cfg, ToMimirGroups(groups, connection)))
  {
    hide CallsFor, SloConvergence.Live, MimirConvergence.Live, MimirConvergence.Holding, RuleGroups, ToMimirGroups,
      Pushes;
    PassesOnTheWay(cfg, w, times, 4, groups, connection);
    FourPasses(cfg, w, times, groups, connection);
    var v := SloConvergence.Passes(cfg, w, times, 4);
    CompiledLive(cfg, v, groups, connection);
    MimirConvergence.TwoPassesConverge(cfg, v, 2);
  }

  /**
   A new SLO that compiles: after four failure-free passes of its controller and two of the MimirRule
   controller, Mimir holds every compiled rule.
   */
  lemma NewSloDelivered(
    cfg: Config, w: World, times: nat -> int, groups: seq<RuleGroup>, connection: Connection, g: int, i: int)
    requires CallsFor(cfg, w, groups, connection) && w.prom.None? && w.rule.None?
    requires cfg.validAddress(connection.address) && cfg.parseDuration("5m").Some?
    requires 0 <= g < |groups| && 0 <= i < |groups[g].rules|
    ensures var done := MimirConvergence.Passes(cfg, SloConvergence.Passes(cfg, w, times, 4), 2);
      Delivered(cfg, done.ruler, Client(connection.address, connection.targetTenant), groups[g], i)
  {
    hide CallsFor, Delivered, MimirConvergence.Holding, ToMimirGroups, Pushes;
    NewSloHolds(cfg, w, times, groups, connection);
    var done := MimirConvergence.Passes(cfg, SloConvergence.Passes(cfg, w, times, 4), 2);
    HeldRules(cfg, w, groups, connection, done.ruler, g, i);
  }

  lemma FourPasses(cfg: Config, w: World, times: nat -> int, groups: seq<RuleGroup>, connection: Connection)
    requires CallsFor(cfg, w, groups, connection)
    ensures SloConvergence.Passes(cfg, w, times, 4).prom.Some? && SloConvergence.Passes(cfg, w, times, 4).rule.Some?
  {
    hide SloConvergence.Live, RuleGroups, UsedSli;
    FourPassesConverge(cfg, w, times, 4);
  }
}
