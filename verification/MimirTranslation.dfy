/**
 From PrometheusRule groups to Mimir: first into the groups of a MimirRule object, then into the rule
 groups pushed to the Mimir ruler.
 */
module MimirTranslation {
  import opened Text
  import opened Selectors
  import opened Api
  import opened RuleCompiler
  import opened RuleTable
  import opened RuleReferences

  /** A rule as a MimirRule object stores it; the translation leaves its other fields empty. */
  datatype Entry = Entry(record: string, alert: string, expr: string, duration: Option<string>, labels: Labels)

  datatype MimirGroup = MimirGroup(name: string, sourceTenants: seq<string>, entries: seq<Entry>)

  datatype MimirRuleSpec = MimirRuleSpec(connection: Connection, groups: seq<MimirGroup>)

  /** The status is the Ready text. */
  type MimirRule = Object<MimirRuleSpec, string>

  /** A rule as pushed; `pending` is the parsed duration, zero when absent. */
  datatype Node = Node(record: string, alert: string, expr: string, pending: nat, labels: Labels)

  datatype PushedGroup = PushedGroup(name: string, sourceTenants: seq<string>, nodes: seq<Node>)

  // ----- First stage -----

  function ToEntry(r: Rule): Entry
  {
    if r.record == "" && r.alert != "" then Entry("", r.alert, Render(r.expr), r.duration, r.labels)
    else Entry(r.record, "", Render(r.expr), None, r.labels)
  }

  function ToMimirGroup(group: RuleGroup, connection: Connection): MimirGroup
  {
    MimirGroup(group.name, connection.sourceTenants,
               seq(|group.rules|, i requires 0 <= i < |group.rules| => ToEntry(group.rules[i])))
  }

  function ToMimirGroups(groups: seq<RuleGroup>, connection: Connection): seq<MimirGroup>
  {
    seq(|groups|, i requires 0 <= i < |groups| => ToMimirGroup(groups[i], connection))
  }

  method NewMimirRuleGroups(groups: seq<RuleGroup>, connection: Connection) returns (result: seq<MimirGroup>)
    ensures result == ToMimirGroups(groups, connection)
  {
    hide ToEntry;
    result := [];
    for g := 0 to |groups|
      invariant |result| == g
      invariant forall i | 0 <= i < g :: result[i] == ToMimirGroup(groups[i], connection)
    {
      var entries: seq<Entry> := [];
      for i := 0 to |groups[g].rules|
        invariant |entries| == i
        invariant forall k | 0 <= k < i :: entries[k] == ToEntry(groups[g].rules[k])
      {
        entries := entries + [ToEntry(groups[g].rules[i])];
      }
      var mimirGroup := MimirGroup(groups[g].name, connection.sourceTenants, entries);
      assert mimirGroup == ToMimirGroup(groups[g], connection);
      result := result + [mimirGroup];
    }
  }

  /** The MimirRule an SLO and a PrometheusRule give rise to; it carries no finalizers. */
  function NewMimirRule(slo: Slo, rule: PrometheusRule, connection: Connection): MimirRule
  {
    Object(
      NO_META.(name := rule.meta.name, namespace := rule.meta.namespace, labels := rule.meta.labels,
               annotations := rule.meta.annotations, owners := [ControllerRef(slo)]),
      MimirRuleSpec(connection, ToMimirGroups(rule.spec, connection)),
      "")
  }

  // ----- Second stage -----

  function ParsedDuration(cfg: Config, duration: Option<string>): Option<nat>
  {
    match duration
    case None => Some(0)
    case Some(d) => cfg.parseDuration(d)
  }

  function ToNode(cfg: Config, e: Entry): Option<Node>
  {
    if e.alert == "" then Some(Node(e.record, "", e.expr, 0, e.labels))
    else
      match ParsedDuration(cfg, e.duration)
      case None => None
      case Some(d) => Some(Node("", e.alert, e.expr, d, e.labels))
  }

  predicate Translatable(cfg: Config, entries: seq<Entry>)
  {
    forall i | 0 <= i < |entries| :: ToNode(cfg, entries[i]).Some?
  }

  /** The group to push, or nothing: an unreadable duration makes the push return early, reporting success. */
  function ToPushed(cfg: Config, group: MimirGroup): Option<PushedGroup>
  {
    if Translatable(cfg, group.entries) then
      Some(PushedGroup(group.name, group.sourceTenants,
                       seq(|group.entries|, i requires 0 <= i < |group.entries| =>
                           ToNode(cfg, group.entries[i]).value)))
    else None
  }

  method PushedGroupOf(cfg: Config, group: MimirGroup) returns (pushed: Option<PushedGroup>)
    ensures pushed == ToPushed(cfg, group)
  {
    hide ToNode;
    var nodes: seq<Node> := [];
    for i := 0 to |group.entries|
      invariant |nodes| == i
      invariant forall k | 0 <= k < i :: ToNode(cfg, group.entries[k]) == Some(nodes[k])
    {
      var node := ToNode(cfg, group.entries[i]);
      if node.None? { return None; }
      nodes := nodes + [node.value];
    }
    assert Translatable(cfg, group.entries);
    assert nodes == ToPushed(cfg, group).value.nodes;
    pushed := Some(PushedGroup(group.name, group.sourceTenants, nodes));
  }

  /** The pushes a list of groups leads to. */
  function Pushes(cfg: Config, groups: seq<MimirGroup>): seq<PushedGroup>
  {
    if groups == [] then []
    else
      match ToPushed(cfg, groups[0])
      case None => Pushes(cfg, groups[1..])
      case Some(p) => [p] + Pushes(cfg, groups[1..])
  }

  /** A group that is given up keeps none of the others back: the rest are pushed, each once and in order. */
  lemma {:induction false} PushesSkip(cfg: Config, before: seq<MimirGroup>, group: MimirGroup, after: seq<MimirGroup>)
    ensures Pushes(cfg, before + [group] + after)
         == Pushes(cfg, before)
          + (if ToPushed(cfg, group).Some? then [ToPushed(cfg, group).value] else []) + Pushes(cfg, after)
  {
    hide ToPushed;
    if before == [] {
      assert [] + [group] + after == [group] + after;
      assert ([group] + after)[1..] == after;
    } else {
      assert (before + [group] + after)[1..] == before[1..] + [group] + after;
      PushesSkip(cfg, before[1..], group, after);
    }
  }

  function Names(groups: seq<MimirGroup>): seq<string>
  {
    seq(|groups|, i requires 0 <= i < |groups| => groups[i].name)
  }

  // ----- What the two stages keep -----

  /** `node` is `rule` as far as the ruler is concerned. */
  predicate SameRule(cfg: Config, rule: Rule, node: Node)
  {
    && node.record == rule.record && node.alert == rule.alert
    && node.expr == Render(rule.expr) && node.labels == rule.labels
    && (rule.alert != "" ==> ParsedDuration(cfg, rule.duration) == Some(node.pending))
  }

  /** The durations the ruler needs are readable. */
  predicate DurationsParse(cfg: Config, group: RuleGroup)
  {
    forall r | r in group.rules :: r.record == "" && r.alert != "" ==> ParsedDuration(cfg, r.duration).Some?
  }

  lemma RuleTranslated(cfg: Config, r: Rule)
    ensures ToNode(cfg, ToEntry(r)).Some?
      <==> (r.record == "" && r.alert != "" ==> ParsedDuration(cfg, r.duration).Some?)
    ensures ToNode(cfg, ToEntry(r)).Some? ==>
      (SameRule(cfg, r, ToNode(cfg, ToEntry(r)).value) <==> r.record == "" || r.alert == "")
  {
    hide Render, ParsedDuration;
  }

  /**
   A group is pushed exactly when its alerts' durations parse; it then keeps name, tenants, rule count
   and order, and each rule survives exactly when it does not set both a record and an alert name.
   */
  lemma TranslationKeepsRules(cfg: Config, group: RuleGroup, connection: Connection)
    ensures ToPushed(cfg, ToMimirGroup(group, connection)).Some? <==> DurationsParse(cfg, group)
    ensures DurationsParse(cfg, group) ==>
      var pushed := ToPushed(cfg, ToMimirGroup(group, connection)).value;
      && pushed.name == group.name && pushed.sourceTenants == connection.sourceTenants
      && |pushed.nodes| == |group.rules|
      && forall i | 0 <= i < |group.rules| ::
           SameRule(cfg, group.rules[i], pushed.nodes[i]) <==> group.rules[i].record == "" || group.rules[i].alert == ""
  {
    hide ToEntry, ToNode, SameRule, ParsedDuration;
    forall i | 0 <= i < |group.rules| { RuleTranslated(cfg, group.rules[i]); }
    var entries := ToMimirGroup(group, connection).entries;
    if Translatable(cfg, entries) {
      forall r | r in group.rules
        ensures r.record == "" && r.alert != "" ==> ParsedDuration(cfg, r.duration).Some?
      {
        var i :| 0 <= i < |group.rules| && group.rules[i] == r;
        assert ToNode(cfg, entries[i]).Some?;
      }
    }
  }

  /** Exactly one of record and alert is set. */
  predicate OneKind(r: Rule)
  {
    (r.record == "") != (r.alert == "")
  }

  lemma AlertRuleShape(mrs: MonitoringRuleSet, cfg: Config, short: Rule, long: Rule, severity: Severity)
    ensures var r := mrs.TwoWindowAlert(cfg, short, long, severity);
      r.record == "" && r.alert != "" && r.duration == Some("5m")
  {
    hide PrintSelector;
    var r := mrs.TwoWindowAlert(cfg, short, long, severity);
    assert |r.alert| >= |"_alert_"| == 7;
  }

  /** Every compiled rule sets exactly one of record and alert, and only uses the duration "5m". */
  lemma CompiledRuleShape(mrs: MonitoringRuleSet, cfg: Config, budget: real, g: int, i: int)
    requires mrs.slo.spec.targets != [] && At(mrs.Groups(cfg, budget), g, i)
    ensures var r := mrs.Groups(cfg, budget)[g].rules[i];
      OneKind(r) && (r.alert != "" ==> r.duration == Some("5m"))
  {
    hide MonitoringRuleSet.Groups, MonitoringRuleSet.Windows, MonitoringRuleSet.RuleOf,
      MonitoringRuleSet.AlertGroup, MonitoringRuleSet.RuleLabels, RecordOf, MonitoringRuleSet.BurnRateRule, Render,
      UserLabels, MonitoringRuleSet.TwoWindowAlert;
    RowsAt(mrs, cfg, budget, g);
    RecordAt(mrs, cfg, budget, g, i);
    if 1 <= g <= 5 {
      RuleOfKind(mrs, KindAt(g), mrs.Windows()[i], budget);
      RecordsDiffer(KindAt(g), KindAt(g));
    } else if g == 0 {
      TargetShape(mrs);
    } else {
      AlertsAllOrNothing(mrs, cfg, budget);
      AlertRuleShape(mrs, cfg, mrs.BurnRateRule(ALERTS[i].short, budget), mrs.BurnRateRule(ALERTS[i].long, budget),
                     ALERTS[i].severity);
    }
  }

  lemma TargetShape(mrs: MonitoringRuleSet)
    requires mrs.slo.spec.targets != []
    ensures mrs.TargetRule().alert == "" && mrs.TargetRule().record != ""
  {
    hide MonitoringRuleSet.RuleLabels;
    assert |TARGET_RECORD| == 15;
  }

  /** Every group the compiler emits is pushed, rule for rule. */
  lemma CompiledGroupsPushed(mrs: MonitoringRuleSet, cfg: Config, budget: real, connection: Connection, g: int)
    requires mrs.slo.spec.targets != [] && cfg.parseDuration("5m").Some?
    requires 0 <= g < |mrs.Groups(cfg, budget)|
    ensures var group := mrs.Groups(cfg, budget)[g]; var pushed := ToPushed(cfg, ToMimirGroup(group, connection));
      && pushed.Some? && pushed.value.name == group.name && pushed.value.sourceTenants == connection.sourceTenants
      && |pushed.value.nodes| == |group.rules|
      && forall i | 0 <= i < |group.rules| :: SameRule(cfg, group.rules[i], pushed.value.nodes[i])
  {
    hide MonitoringRuleSet.Groups, SameRule, ToPushed, ToMimirGroup;
    var group := mrs.Groups(cfg, budget)[g];
    forall i | 0 <= i < |group.rules|
      ensures OneKind(group.rules[i]) && (group.rules[i].alert != "" ==> group.rules[i].duration == Some("5m"))
    {
      assert At(mrs.Groups(cfg, budget), g, i);
      CompiledRuleShape(mrs, cfg, budget, g, i);
    }
    assert DurationsParse(cfg, group);
    TranslationKeepsRules(cfg, group, connection);
  }

  // ----- The Mimir store -----

  /** A Mimir client: the server it talks to and the tenant it acts for. */
  datatype Client = Client(address: string, tenant: string)

  /** Where a group is kept: Mimir keeps the groups of every tenant apart. */
  datatype Place = Place(client: Client, name: string)

  type Ruler = map<Place, PushedGroup>

  function ClientOf(connection: Connection): Client
  {
    Client(connection.address, connection.targetTenant)
  }

  /** Groups of two connections share a place exactly if server, tenant and group name are the same. */
  lemma SharedPlaceIff(a: Connection, b: Connection, group: string, other: string)
    ensures Place(ClientOf(a), group) == Place(ClientOf(b), other)
      <==> a.address == b.address && a.targetTenant == b.targetTenant && group == other
  {
  }

  function PushAll(ruler: Ruler, client: Client, pushes: seq<PushedGroup>): Ruler
    decreases |pushes|
  {
    if pushes == [] then ruler
    else PushAll(ruler[Place(client, pushes[0].name) := pushes[0]], client, pushes[1..])
  }

  function DeleteAll(ruler: Ruler, client: Client, names: seq<string>): Ruler
    decreases |names|
  {
    if names == [] then ruler else DeleteAll(ruler - {Place(client, names[0])}, client, names[1..])
  }

  lemma {:induction false} PushAllFrame(ruler: Ruler, client: Client, pushes: seq<PushedGroup>, place: Place)
    requires place.client != client || forall p | p in pushes :: p.name != place.name
    ensures place in PushAll(ruler, client, pushes) <==> place in ruler
    ensures place in ruler ==> PushAll(ruler, client, pushes)[place] == ruler[place]
    decreases |pushes|
  {
    if pushes != [] {
      PushAllFrame(ruler[Place(client, pushes[0].name) := pushes[0]], client, pushes[1..], place);
    }
  }

  lemma {:induction false} DeleteAllRest(ruler: Ruler, client: Client, names: seq<string>)
    ensures DeleteAll(ruler, client, names) == ruler - (set n | n in names :: Place(client, n))
    decreases |names|
  {
    if names != [] {
      DeleteAllRest(ruler - {Place(client, names[0])}, client, names[1..]);
      assert names == [names[0]] + names[1..];
    }
  }

  const SUFFIXES := [
    "_slo_target", "_sli_good", "_sli_total", "_sli_measurement", "_error_budget_ratio", "_burn_rate", "_slo_alert"]

  lemma GroupNames(mrs: MonitoringRuleSet, cfg: Config, budget: real, g: int)
    requires mrs.slo.spec.targets != []
    requires 0 <= g < |mrs.Groups(cfg, budget)|
    ensures |mrs.Groups(cfg, budget)| <= 7
    ensures mrs.Groups(cfg, budget)[g].name == mrs.slo.meta.name + SUFFIXES[g]
  {
    hide MonitoringRuleSet.Row, MonitoringRuleSet.TargetRule, MonitoringRuleSet.AlertRules,
      MonitoringRuleSet.Windows, BurnRateTable, MonitoringRuleSet.AlertingBurnRates;
  }

  /** Three last characters tell the suffixes apart. */
  function Tail(s: string): string
    requires |s| >= 3
  {
    s[|s| - 3..]
  }

  lemma SuffixTails(g: nat)
    requires g < 7
    ensures |SUFFIXES[g]| >= 3
    ensures Tail(SUFFIXES[g]) == ["get", "ood", "tal", "ent", "tio", "ate", "ert"][g]
  {
  }

  lemma TailsDiffer(g: nat, h: nat)
    requires g < 7 && h < 7
    ensures ["get", "ood", "tal", "ent", "tio", "ate", "ert"][g] == ["get", "ood", "tal", "ent", "tio", "ate", "ert"][h]
      <==> g == h
  {
    var first := ["get", "ood", "tal", "ent", "tio", "ate", "ert"];
    assert first[0][0] == 'g' && first[1][0] == 'o' && first[2][0] == 't' && first[3][1] == 'n' && first[4][1] == 'i';
    assert first[5][1] == 't' && first[6][1] == 'r' && first[3][0] == 'e' && first[6][0] == 'e' && first[5][0] == 'a';
    assert first[4][0] == 't' && first[2][1] == 'a';
  }

  /** Group names are injective in the SLO name and the group kind, over all strings. */
  lemma GroupNameInjective(a: string, g: nat, b: string, h: nat)
    requires g < 7 && h < 7
    ensures a + SUFFIXES[g] == b + SUFFIXES[h] <==> a == b && g == h
  {
    SuffixTails(g);
    SuffixTails(h);
    TailsDiffer(g, h);
    if a + SUFFIXES[g] == b + SUFFIXES[h] {
      TailOfConcat(a, SUFFIXES[g]);
      TailOfConcat(b, SUFFIXES[h]);
      assert (a + SUFFIXES[g])[..|a|] == a && (b + SUFFIXES[h])[..|b|] == b;
    }
  }

  lemma TailOfConcat(a: string, s: string)
    requires |s| >= 3
    ensures Tail(a + s) == Tail(s)
  {
  }

  lemma {:induction false} PushesFrom(cfg: Config, groups: seq<MimirGroup>, p: PushedGroup)
    requires p in Pushes(cfg, groups)
    ensures exists g :: g in groups && ToPushed(cfg, g) == Some(p)
  {
    if groups != [] {
      var first := ToPushed(cfg, groups[0]);
      if first == Some(p) {
        assert groups[0] in groups;
      } else {
        PushesFrom(cfg, groups[1..], p);
      }
    }
  }

  /** Every group a compiled SLO pushes or deletes is named after it. */
  lemma OwnNames(mrs: MonitoringRuleSet, cfg: Config, budget: real, connection: Connection)
    requires mrs.slo.spec.targets != []
    ensures var groups := ToMimirGroups(mrs.Groups(cfg, budget), connection);
      && |groups| <= 7
      && (forall g | 0 <= g < |groups| :: groups[g].name == mrs.slo.meta.name + SUFFIXES[g])
      && (forall n | n in Names(groups) :: exists g: nat :: g < 7 && n == mrs.slo.meta.name + SUFFIXES[g])
      && (forall p | p in Pushes(cfg, groups) :: p.name in Names(groups))
  {
    hide MonitoringRuleSet.Groups, ToEntry;
    var source := mrs.Groups(cfg, budget);
    var groups := ToMimirGroups(source, connection);
    forall g: nat | g < |groups|
      ensures |groups| <= 7 && groups[g].name == mrs.slo.meta.name + SUFFIXES[g]
    {
      GroupNames(mrs, cfg, budget, g);
    }
    forall p | p in Pushes(cfg, groups) ensures p.name in Names(groups) {
      PushesFrom(cfg, groups, p);
      var m :| m in groups && ToPushed(cfg, m) == Some(p);
      var g :| 0 <= g < |groups| && groups[g] == m;
      assert Names(groups)[g] == p.name;
    }
  }

  /**
   Pushing or deleting one SLO's compiled groups leaves every group of a differently named SLO, and every
   group of another server or tenant, as it was; the names of two SLOs' groups meet exactly when the SLOs
   have the same name.
   */
  lemma NonInterference(
    mrs: MonitoringRuleSet, cfg: Config, budget: real, connection: Connection, ruler: Ruler, other: string, h: nat,
    client: Client)
    requires mrs.slo.spec.targets != [] && h < 7
    ensures var groups := ToMimirGroups(mrs.Groups(cfg, budget), connection);
            var own, place := Client(connection.address, connection.targetTenant), Place(client, other + SUFFIXES[h]);
      other != mrs.slo.meta.name || client != own ==>
        && (place in PushAll(ruler, own, Pushes(cfg, groups)) <==> place in ruler)
        && (place in ruler ==> PushAll(ruler, own, Pushes(cfg, groups))[place] == ruler[place])
        && (place in DeleteAll(ruler, own, Names(groups)) <==> place in ruler)
        && (place in ruler ==> DeleteAll(ruler, own, Names(groups))[place] == ruler[place])
    ensures h < 6 ==>
      (other + SUFFIXES[h] in Names(ToMimirGroups(mrs.Groups(cfg, budget), connection)) <==> other == mrs.slo.meta.name)
  {
    hide MonitoringRuleSet.Groups, ToMimirGroup, ToPushed;
    var groups := ToMimirGroups(mrs.Groups(cfg, budget), connection);
    var name := other + SUFFIXES[h];
    OwnNames(mrs, cfg, budget, connection);
    RowsAt(mrs, cfg, budget, 0);
    forall g: nat | g < 7
      ensures name == mrs.slo.meta.name + SUFFIXES[g] <==> other == mrs.slo.meta.name && g == h
    {
      GroupNameInjective(other, h, mrs.slo.meta.name, g);
    }
    DeleteAllRest(ruler, ClientOf(connection), Names(groups));
    if other != mrs.slo.meta.name || client != ClientOf(connection) {
      assert other != mrs.slo.meta.name ==> name !in Names(groups);
      PushAllFrame(ruler, ClientOf(connection), Pushes(cfg, groups), Place(client, name));
    }
    if other == mrs.slo.meta.name && h < 6 {
      assert Names(groups)[h] == name;
    }
  }
}
