/**
 What Mimir holds in the end: the rule texts of a new SLO, read back from the ruler, have the meaning the
 compiled expressions have.
 */
module MimirMeaning {
  import opened Text
  import opened Selectors
  import opened FixedPoint
  import opened Api
  import opened RuleCompiler
  import opened RuleTable
  import opened RuleReferences
  import opened PromQL
  import opened RuleMeaning
  import opened AlertMeaning
  import opened ExpressionText
  import opened MimirTranslation
  import opened ObjectStore
  import opened Cluster
  import SloConvergence
  import MimirConvergence
  import opened Delivery

  // ----- Reading Mimir -----

  /** A held rule as its reader takes it; text outside the emitted fragment counts as the constant zero. */
  function ReadNode(n: Node): Rule
  {
    var expr := ReadExpr(n.expr);
    Rule(n.record, n.alert, if expr.Some? then expr.value else Zero, None, n.labels, map[])
  }

  function ReadGroup(g: PushedGroup): RuleGroup
  {
    RuleGroup(g.name, seq(|g.nodes|, i requires 0 <= i < |g.nodes| => ReadNode(g.nodes[i])))
  }

  /** The groups of these names at one server and tenant, absent ones being empty. */
  function ReadRuler(ruler: Ruler, client: Client, groups: seq<RuleGroup>): seq<RuleGroup>
  {
    seq(|groups|, g requires 0 <= g < |groups| =>
      if Place(client, groups[g].name) in ruler then ReadGroup(ruler[Place(client, groups[g].name)])
      else RuleGroup(groups[g].name, []))
  }

  // ----- What the meaning depends on -----

  predicate SameText(a: Rule, b: Rule)
  {
    a.record == b.record && a.alert == b.alert && a.expr == b.expr && a.labels == b.labels
  }

  predicate SameTexts(a: seq<RuleGroup>, b: seq<RuleGroup>)
  {
    && |a| == |b|
    && forall g | 0 <= g < |a| :: SameGroup(a[g], b[g])
  }

  predicate SameGroup(a: RuleGroup, b: RuleGroup)
  {
    |a.rules| == |b.rules| && forall i | 0 <= i < |a.rules| :: SameText(a.rules[i], b.rules[i])
  }

  lemma EmittedToo(a: seq<RuleGroup>, b: seq<RuleGroup>, rule: Rule) returns (other: Rule)
    requires SameTexts(a, b) && Emitted(a, rule)
    ensures Emitted(b, other) && SameText(rule, other)
  {
    var g, r :| 0 <= g < |a| && 0 <= r < |a[g].rules| && a[g].rules[r] == rule;
    assert SameGroup(a[g], b[g]);
    other := b[g].rules[r];
  }

  /** Durations and annotations play no part in what is recorded. */
  lemma StableToo(a: seq<RuleGroup>, b: seq<RuleGroup>, queries: Queries, db: Database)
    requires SameTexts(a, b) && SameTexts(b, a) && Stable(b, queries, db)
    ensures Stable(a, queries, db)
  {
    hide Output, Emitted, SameTexts;
    forall rule, l | Emitted(a, rule) && rule.record != "" && l in Output(rule, db, queries)
      ensures Series(rule.record, l) in db && db[Series(rule.record, l)] == Output(rule, db, queries)[l]
    {
      var other := EmittedToo(a, b, rule);
      SameOutput(rule, other, db, queries);
    }
    forall s | s in db
      ensures Explained(a, queries, db, s)
    {
      assert Explained(b, queries, db, s);
      var rule :| Emitted(b, rule) && Writes(rule, db, queries, s);
      var other := EmittedToo(b, a, rule);
      SameOutput(rule, other, db, queries);
      assert Writes(other, db, queries, s);
    }
  }

  lemma SameOutput(a: Rule, b: Rule, db: Database, queries: Queries)
    requires SameText(a, b)
    ensures Output(a, db, queries) == Output(b, db, queries)
  {
    hide Value, Relabelled;
  }

  // ----- From the compiler to Mimir and back -----

  lemma NodeReads(cfg: Config, rule: Rule, node: Node)
    requires MimirTranslation.SameRule(cfg, rule, node) && ReadExpr(Render(rule.expr)) == Some(rule.expr)
    ensures SameText(rule, ReadNode(node)) && SameText(ReadNode(node), rule)
  {
    hide ReadExpr, Render;
  }

  /** Compiled groups that are all held read back as themselves. */
  lemma HeldReads(
    cfg: Config, mrs: MonitoringRuleSet, budget: real, connection: Connection, ruler: Ruler, groups: seq<RuleGroup>)
    requires mrs.slo.spec.targets != [] && Quotable(mrs) && cfg.parseDuration("5m").Some?
    requires groups == mrs.Groups(cfg, budget)
    requires MimirConvergence.Holding(
      ruler, Client(connection.address, connection.targetTenant), Pushes(cfg, ToMimirGroups(groups, connection)))
    ensures var held := ReadRuler(ruler, Client(connection.address, connection.targetTenant), groups);
      SameTexts(groups, held) && SameTexts(held, groups)
  {
    hide MonitoringRuleSet.Groups, Pushes, ToPushed, ToMimirGroup, ReadNode, SameText, ReadExpr, Render, Quotable,
      MimirTranslation.SameRule;
    var held := ReadRuler(ruler, Client(connection.address, connection.targetTenant), groups);
    var mimir := ToMimirGroups(groups, connection);
    CompiledPushes(cfg, mrs, budget, connection);
    PushesInOrder(cfg, mimir);
    forall g | 0 <= g < |groups|
      ensures SameGroup(groups[g], held[g]) && SameGroup(held[g], groups[g])
    {
      CompiledGroupsPushed(mrs, cfg, budget, connection, g);
      var pushed := ToPushed(cfg, mimir[g]).value;
      assert Pushes(cfg, mimir)[g] == pushed;
      assert held[g] == ReadGroup(pushed);
      forall i | 0 <= i < |groups[g].rules|
        ensures SameText(groups[g].rules[i], held[g].rules[i]) && SameText(held[g].rules[i], groups[g].rules[i])
      {
        assert At(groups, g, i);
        CompiledTextReads(mrs, cfg, budget, g, i);
        NodeReads(cfg, groups[g].rules[i], pushed.nodes[i]);
      }
    }
  }

  function RuleSetOf(cfg: Config, w: World): MonitoringRuleSet
    requires w.slo.Some? && SloConvergence.Resolvable(w, w.slo.value)
  {
    MonitoringRuleSet(w.slo.value, SloConvergence.UsedSli(w, w.slo.value), BaseWindow(cfg, w.slo.value))
  }

  /** What Mimir holds of an SLO after four failure-free passes of its controller and two of
      the MimirRule controller. */
  function Held(
    cfg: Config, w: World, times: nat -> int, groups: seq<RuleGroup>, connection: Connection): seq<RuleGroup>
  {
    ReadRuler(MimirConvergence.Passes(cfg, SloConvergence.Passes(cfg, w, times, 4), 2).ruler,
      Client(connection.address, connection.targetTenant), groups)
  }

  /** The rules Mimir holds of a new SLO read back as the compiled ones. */
  lemma NewSloReadsBack(
    cfg: Config, w: World, times: nat -> int, groups: seq<RuleGroup>, connection: Connection)
    requires CallsFor(cfg, w, groups, connection) && w.prom.None? && w.rule.None?
    requires cfg.validAddress(connection.address) && cfg.parseDuration("5m").Some?
    requires Quotable(RuleSetOf(cfg, w))
    ensures var held := Held(cfg, w, times, groups, connection); SameTexts(groups, held) && SameTexts(held, groups)
    ensures RuleSetOf(cfg, w).Compile(cfg) == Success(groups)
  {
    hide SloConvergence.Live, MonitoringRuleSet.Groups, SloConvergence.UsedSli, Quotable, ReadRuler,
      MimirConvergence.Holding, Pushes, SameTexts, SloConvergence.Resolvable;
    SloConvergence.LiveSlo(cfg, w);
    var mrs := RuleSetOf(cfg, w);
    NewSloHolds(cfg, w, times, groups, connection);
    var ruler := MimirConvergence.Passes(cfg, SloConvergence.Passes(cfg, w, times, 4), 2).ruler;
    HeldReads(cfg, mrs, 1.0 - mrs.CheckedTarget(cfg).value, connection, ruler, groups);
  }

  /**
   From the SLO to Mimir and back: for a new SLO with magic alerting, the j-th alert text that Mimir holds,
   evaluated with the recording texts that Mimir holds, fires exactly when `and` pairs ignoring the window
   and both windows exceed the threshold or the threshold is negative; paired on all labels, as Mimir pairs, it
   never fires.
   */
  lemma HeldAlertFiresIff(
    cfg: Config, w: World, times: nat -> int, groups: seq<RuleGroup>, connection: Connection, t: real, db: Database,
    queries: Queries, good: Counts, total: Counts, j: nat, pairing: Pairing)
    requires CallsFor(cfg, w, groups, connection) && w.prom.None? && w.rule.None?
    requires cfg.validAddress(connection.address) && cfg.parseDuration("5m").Some?
    requires Quotable(RuleSetOf(cfg, w)) && Alerting(RuleSetOf(cfg, w), cfg, t)
    requires Sampled(RuleSetOf(cfg, w), queries, good, total)
    requires Stable(Held(cfg, w, times, groups, connection), queries, db)
    requires j < 4
    ensures var held := Held(cfg, w, times, groups, connection);
      && |held| == 7 && |held[6].rules| == 4
      && (Fires(held[6].rules[j], db, queries, pairing)
          <==> pairing == IgnoringWindow && (Negative(cfg, j) || BothExceed(cfg, 1.0 - t, good, total, j)))
  {
    hide SloConvergence.Live, SloConvergence.Resolvable, RuleGroups, Quotable, Alerting, Sampled, Stable, Held,
      Rounded, BothExceed, Negative, MonitoringRuleSet.Compile, RuleSetOf, Value;
    SloConvergence.LiveSlo(cfg, w);
    var held := Held(cfg, w, times, groups, connection);
    NewSloReadsBack(cfg, w, times, groups, connection);
    StableToo(groups, held, queries, db);
    CompiledAlertFiresIff(RuleSetOf(cfg, w), cfg, groups, t, db, queries, good, total, j, pairing);
    assert SameGroup(groups[6], held[6]);
    assert SameText(groups[6].rules[j], held[6].rules[j]);
  }
}
