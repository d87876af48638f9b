/**
 References between emitted rules: which rule a printed selector picks out, and when the whole rule
 set is closed, unambiguous and acyclic.
 */
module RuleReferences {
  import opened Text
  import opened Selectors
  import opened FixedPoint
  import opened Api
  import opened RuleCompiler
  import opened RuleTable
  import opened PromQL

  function References(e: Expr): seq<Ref>
  {
    match e
    case Zero => []
    case Constant(_) => []
    case Aggregate(_, _, _, _) => []
    case Difference(a, b) => [Ref(a, ""), Ref(b, "")]
    case CappedRatio(n, d) => [n, d]
    case Complement(r) => [r]
    case Quotient(r, _) => [r]
    case BothAbove(s, _, l, _) => [s, l]
  }

  ghost predicate Selects(r: Ref, rule: Rule)
  {
    && rule.record == r.record && rule.record != ""
    && ParseSelector(r.matchers).Some?
    && Matches(rule.labels, ParseSelector(r.matchers).value)
  }

  ghost predicate At(groups: seq<RuleGroup>, g: int, i: int)
  {
    0 <= g < |groups| && 0 <= i < |groups[g].rules|
  }

  /** The rule at position (g, i), and no other emitted rule, is what `r` selects. */
  ghost predicate SelectsOnly(groups: seq<RuleGroup>, r: Ref, g: int, i: int)
  {
    && At(groups, g, i) && Selects(r, groups[g].rules[i])
    && forall h, j | At(groups, h, j) && Selects(r, groups[h].rules[j]) :: h == g && j == i
  }

  /** Every reference of every emitted rule selects exactly one emitted recording rule. */
  ghost predicate WellReferenced(groups: seq<RuleGroup>)
  {
    forall g, i, k | At(groups, g, i) && 0 <= k < |References(groups[g].rules[i].expr)| ::
      Resolved(groups, References(groups[g].rules[i].expr)[k])
  }

  ghost predicate Resolved(groups: seq<RuleGroup>, r: Ref)
  {
    exists g, i :: SelectsOnly(groups, r, g, i)
  }

  /** Label maps a selector can carry: no quotes in the SLO's names and windows, no `=` in user labels. */
  ghost predicate Clean(mrs: MonitoringRuleSet)
  {
    forall w | w in mrs.Windows() :: Printable(mrs.RuleLabels(w))
  }

  lemma MatchesSelf(labels: Labels)
    ensures Matches(labels, Visible(labels))
  {
  }

  lemma WindowKeyVisible()
    ensures !Reserved("window")
  {
    assert '_' !in "window";
  }

  /** A rule's selector tells its kind's windows apart when no user label hides the window. */
  lemma SelectorPicksWindow(mrs: MonitoringRuleSet, v: string, w: string)
    requires Printable(mrs.RuleLabels(w))
    requires "window" !in UserLabels(mrs.slo.meta.labels)
    ensures ParseSelector(PrintSelector(mrs.RuleLabels(w))) == Some(Visible(mrs.RuleLabels(w)))
    ensures Matches(mrs.RuleLabels(v), Visible(mrs.RuleLabels(w))) <==> v == w
  {
    hide UserLabels, MonitoringRuleSet.RuleLabels, ParseSelector, PrintSelector, Reserved;
    SelectorRoundTrip(mrs.RuleLabels(w));
    MatchesSelf(mrs.RuleLabels(w));
    WindowKeyVisible();
    RuleWindow(mrs, v);
    RuleWindow(mrs, w);
    assert "window" in Visible(mrs.RuleLabels(w));
  }

  // ----- Where the rules are -----

  function KindAt(g: int): Kind
    requires 1 <= g <= 5
  {
    if g == 1 then Good else if g == 2 then Total else if g == 3 then Measurement
    else if g == 4 then Ratio else BurnRate
  }

  function GroupOf(kind: Kind): int
    requires kind != Bad
  {
    match kind
    case Good => 1
    case Total => 2
    case Measurement => 3
    case Ratio => 4
    case BurnRate => 5
  }

  lemma RowsAt(mrs: MonitoringRuleSet, cfg: Config, budget: real, g: int)
    requires mrs.slo.spec.targets != []
    ensures |mrs.Groups(cfg, budget)| == (if mrs.MagicAlerting() then 7 else 6)
    ensures 1 <= g <= 5 ==> mrs.Groups(cfg, budget)[g].rules == mrs.Row(KindAt(g), mrs.Windows(), budget)
    ensures g == 0 ==> mrs.Groups(cfg, budget)[g].rules == [mrs.TargetRule()]
    ensures g == 6 && mrs.MagicAlerting() ==> mrs.Groups(cfg, budget)[g] == mrs.AlertGroup(cfg, budget)
  {
    hide MonitoringRuleSet.Row, MonitoringRuleSet.TargetRule, MonitoringRuleSet.AlertGroup,
      MonitoringRuleSet.Windows;
  }

  lemma RowEntry(mrs: MonitoringRuleSet, kind: Kind, budget: real, i: int)
    requires kind != Bad && 0 <= i < |mrs.Windows()|
    ensures |mrs.Row(kind, mrs.Windows(), budget)| == |mrs.Windows()|
    ensures mrs.Row(kind, mrs.Windows(), budget)[i] == mrs.RuleOf(kind, mrs.Windows()[i], budget)
  {
    hide MonitoringRuleSet.RuleOf, MonitoringRuleSet.Windows;
  }

  /** The record name at each position. */
  lemma RecordAt(mrs: MonitoringRuleSet, cfg: Config, budget: real, g: int, i: int)
    requires mrs.slo.spec.targets != []
    requires At(mrs.Groups(cfg, budget), g, i)
    ensures var rule := mrs.Groups(cfg, budget)[g].rules[i];
      && (g == 0 ==> rule.record == TARGET_RECORD)
      && (g == 6 ==> rule.record == "")
      && 0 <= g <= 6
      && (1 <= g <= 5 ==>
            && i < |mrs.Windows()|
            && rule == mrs.RuleOf(KindAt(g), mrs.Windows()[i], budget)
            && rule.record == RecordOf(KindAt(g)) && rule.labels == mrs.RuleLabels(mrs.Windows()[i]))
  {
    hide MonitoringRuleSet.Groups, MonitoringRuleSet.Windows, MonitoringRuleSet.RuleOf,
      MonitoringRuleSet.AlertGroup, MonitoringRuleSet.RuleLabels, RecordOf, MonitoringRuleSet.BurnRateRule, Render;
    RowsAt(mrs, cfg, budget, g);
    if 1 <= g <= 5 {
      RowEntry(mrs, KindAt(g), budget, i);
      RuleOfKind(mrs, KindAt(g), mrs.Windows()[i], budget);
    } else if g == 6 {
      AlertsAllOrNothing(mrs, cfg, budget);
    }
  }

  /** The window label of a rule for a window. */
  function WindowLabel(mrs: MonitoringRuleSet, w: string): string
  {
    var user := UserLabels(mrs.slo.meta.labels);
    if "window" in user then user["window"] else w
  }

  /**
   Each of the five per-window groups has exactly one rule for every distinct window, in the windows' first
   order of occurrence, of its own kind and labelled with its window, or, if the user keyed a label `window`,
   with the user's value.
   */
  lemma OneRulePerWindow(mrs: MonitoringRuleSet, cfg: Config, budget: real, g: int)
    requires mrs.slo.spec.targets != [] && 1 <= g <= 5
    ensures var rules := mrs.Groups(cfg, budget)[g].rules; var ws := mrs.Windows();
      && |rules| == |ws|
      && forall i | 0 <= i < |ws| ::
           && rules[i].record == RecordOf(KindAt(g)) && rules[i].alert == ""
           && "window" in rules[i].labels && rules[i].labels["window"] == WindowLabel(mrs, ws[i])
    ensures Distinct(mrs.Windows())
  {
    hide MonitoringRuleSet.Groups, MonitoringRuleSet.Windows, MonitoringRuleSet.RuleOf, UserLabels,
      MonitoringRuleSet.Row, MonitoringRuleSet.RuleLabels;
    RowsAt(mrs, cfg, budget, g);
    WindowsInOrder(mrs);
    assert mrs.baseWindow in mrs.Windows();
    RowEntry(mrs, KindAt(g), budget, 0);
    forall i | 0 <= i < |mrs.Windows()|
      ensures |mrs.Groups(cfg, budget)[g].rules| == |mrs.Windows()|
      ensures mrs.Groups(cfg, budget)[g].rules[i] == mrs.RuleOf(KindAt(g), mrs.Windows()[i], budget)
    {
      RowEntry(mrs, KindAt(g), budget, i);
    }
    forall i | 0 <= i < |mrs.Windows()|
      ensures var r := mrs.RuleOf(KindAt(g), mrs.Windows()[i], budget);
        && r.record == RecordOf(KindAt(g)) && r.alert == ""
        && "window" in r.labels && r.labels["window"] == WindowLabel(mrs, mrs.Windows()[i])
    {
      RuleOfKind(mrs, KindAt(g), mrs.Windows()[i], budget);
      RuleWindow(mrs, mrs.Windows()[i]);
    }
  }

  /** The reference to a kind's rule for a window selects that rule and nothing else. */
  lemma ReferenceExact(mrs: MonitoringRuleSet, cfg: Config, budget: real, kind: Kind, i: int)
    requires mrs.slo.spec.targets != [] && Clean(mrs) && "window" !in UserLabels(mrs.slo.meta.labels)
    requires kind != Bad && 0 <= i < |mrs.Windows()|
    ensures SelectsOnly(mrs.Groups(cfg, budget), Reference(mrs.RuleOf(kind, mrs.Windows()[i], budget)),
        GroupOf(kind), i)
  {
    hide MonitoringRuleSet.Groups, MonitoringRuleSet.Windows, MonitoringRuleSet.RuleOf, UserLabels, ParseSelector,
      PrintSelector, MonitoringRuleSet.RuleLabels, RecordOf, Matches, Visible;
    var groups := mrs.Groups(cfg, budget);
    var ws := mrs.Windows();
    var rule := mrs.RuleOf(kind, ws[i], budget);
    var g := GroupOf(kind);
    assert KindAt(g) == kind;
    RuleOfKind(mrs, kind, ws[i], budget);
    RowsAt(mrs, cfg, budget, g);
    RowEntry(mrs, kind, budget, i);
    RecordsDiffer(kind, kind);
    SelectorPicksWindow(mrs, ws[i], ws[i]);
    forall h, j | At(groups, h, j) && Selects(Reference(rule), groups[h].rules[j])
      ensures h == g && j == i
    {
      RecordAt(mrs, cfg, budget, h, j);
      if 1 <= h <= 5 {
        RecordsDiffer(KindAt(h), kind);
        SelectorPicksWindow(mrs, ws[j], ws[i]);
        WindowsInOrder(mrs);
      }
    }
  }

  // ----- The references of each kind -----

  lemma KindReferences(mrs: MonitoringRuleSet, w: string, budget: real)
    ensures mrs.HasGoodQuery() ==> References(mrs.RuleOf(Good, w, budget).expr) == []
    ensures !mrs.HasGoodQuery() ==>
      References(mrs.RuleOf(Good, w, budget).expr) == [Ref(TOTAL_RECORD, ""), Ref(BAD_RECORD, "")]
    ensures References(mrs.RuleOf(Total, w, budget).expr) == []
    ensures References(mrs.RuleOf(Measurement, w, budget).expr)
         == [Reference(mrs.RuleOf(Good, w, budget)), Reference(mrs.RuleOf(Total, w, budget))]
    ensures References(mrs.RuleOf(Ratio, w, budget).expr) == [Reference(mrs.RuleOf(Measurement, w, budget))]
    ensures References(mrs.RuleOf(BurnRate, w, budget).expr) == [Reference(mrs.RuleOf(Ratio, w, budget))]
  {
    RecordNames();
    hide PrintSelector, PrintFixed, MonitoringRuleSet.RuleLabels, Reference;
  }

  ghost predicate Resolves(groups: seq<RuleGroup>, g: int, i: int, k: int, h: int, j: int)
  {
    && At(groups, g, i) && 0 <= k < |References(groups[g].rules[i].expr)|
    && SelectsOnly(groups, References(groups[g].rules[i].expr)[k], h, j)
  }

  /** Layers of the table: aggregations and the target, then measurements, ratios, burn rates and alerts. */
  function Layer(g: int): int
  {
    if g <= 2 then 0 else g - 2
  }

  /**
   With a good query and no user label keyed `window`, every recording rule refers to the rules of
   its own window in the layer below.
   */
  lemma RecordingReferences(mrs: MonitoringRuleSet, cfg: Config, budget: real, i: int)
    requires mrs.slo.spec.targets != [] && Clean(mrs) && "window" !in UserLabels(mrs.slo.meta.labels)
    requires mrs.HasGoodQuery() && 0 <= i < |mrs.Windows()|
    ensures var groups := mrs.Groups(cfg, budget);
      && Resolves(groups, 3, i, 0, 1, i) && Resolves(groups, 3, i, 1, 2, i)
      && Resolves(groups, 4, i, 0, 3, i) && Resolves(groups, 5, i, 0, 4, i)
  {
    hide MonitoringRuleSet.Groups, MonitoringRuleSet.Windows, MonitoringRuleSet.RuleOf, UserLabels, Reference,
      SelectsOnly, MonitoringRuleSet.HasGoodQuery, References;
    KindReferences(mrs, mrs.Windows()[i], budget);
    forall g | 1 <= g <= 5
      ensures At(mrs.Groups(cfg, budget), g, i)
      ensures mrs.Groups(cfg, budget)[g].rules[i] == mrs.RuleOf(KindAt(g), mrs.Windows()[i], budget)
    {
      RowsAt(mrs, cfg, budget, g);
      RowEntry(mrs, KindAt(g), budget, i);
    }
    ReferenceExact(mrs, cfg, budget, Good, i);
    ReferenceExact(mrs, cfg, budget, Total, i);
    ReferenceExact(mrs, cfg, budget, Measurement, i);
    ReferenceExact(mrs, cfg, budget, Ratio, i);
  }

  /** Alert j refers to the burn rates of its short and its long window. */
  lemma AlertReferences(mrs: MonitoringRuleSet, cfg: Config, budget: real, j: int, s: int, l: int)
    requires mrs.slo.spec.targets != [] && Clean(mrs) && "window" !in UserLabels(mrs.slo.meta.labels)
    requires mrs.MagicAlerting() && 0 <= j < 4
    requires 0 <= s < |mrs.Windows()| && mrs.Windows()[s] == ALERTS[j].short
    requires 0 <= l < |mrs.Windows()| && mrs.Windows()[l] == ALERTS[j].long
    ensures Resolves(mrs.Groups(cfg, budget), 6, j, 0, 5, s) && Resolves(mrs.Groups(cfg, budget), 6, j, 1, 5, l)
    ensures |References(mrs.Groups(cfg, budget)[6].rules[j].expr)| == 2
  {
    hide MonitoringRuleSet.Groups, MonitoringRuleSet.Windows, UserLabels, Reference, SelectsOnly,
      MonitoringRuleSet.BurnRateRule, MonitoringRuleSet.AlertGroup, MonitoringRuleSet.MagicAlerting, PrintFixed;
    RowsAt(mrs, cfg, budget, 6);
    AlertsAllOrNothing(mrs, cfg, budget);
    ReferenceExact(mrs, cfg, budget, BurnRate, s);
    ReferenceExact(mrs, cfg, budget, BurnRate, l);
  }

  lemma AlertWindowIndices(mrs: MonitoringRuleSet, j: int) returns (s: int, l: int)
    requires 0 <= j < 4
    ensures 0 <= s < |mrs.Windows()| && mrs.Windows()[s] == ALERTS[j].short
    ensures 0 <= l < |mrs.Windows()| && mrs.Windows()[l] == ALERTS[j].long
  {
    hide MonitoringRuleSet.Windows, IsAlertWindow;
    AlertPairs(ALERTS[j]);
    AlertWindowsPresent(mrs, ALERTS[j].short);
    AlertWindowsPresent(mrs, ALERTS[j].long);
    s :| 0 <= s < |mrs.Windows()| && mrs.Windows()[s] == ALERTS[j].short;
    l :| 0 <= l < |mrs.Windows()| && mrs.Windows()[l] == ALERTS[j].long;
  }

  /** Each reference of a rule is resolved one layer down. */
  lemma ReferenceResolved(mrs: MonitoringRuleSet, cfg: Config, budget: real, g: int, i: int, k: int)
    returns (h: int, j: int)
    requires mrs.slo.spec.targets != [] && Clean(mrs) && "window" !in UserLabels(mrs.slo.meta.labels)
    requires mrs.HasGoodQuery()
    requires At(mrs.Groups(cfg, budget), g, i) && 0 <= k < |References(mrs.Groups(cfg, budget)[g].rules[i].expr)|
    ensures Resolves(mrs.Groups(cfg, budget), g, i, k, h, j)
    ensures Layer(h) == Layer(g) - 1
    ensures 1 <= g <= 5 ==> i == j
    ensures 1 <= h <= 5
    ensures g == 6 ==> i < 4 && j < |mrs.Windows()|
    ensures g == 6 ==> mrs.Windows()[j] == if k == 0 then ALERTS[i].short else ALERTS[i].long
  {
    hide MonitoringRuleSet.Groups, MonitoringRuleSet.Windows, UserLabels, SelectsOnly, MonitoringRuleSet.RuleOf,
      MonitoringRuleSet.HasGoodQuery, RecordOf, Reference, MonitoringRuleSet.RuleLabels,
      MonitoringRuleSet.MagicAlerting, MonitoringRuleSet.AlertGroup, MonitoringRuleSet.BurnRateRule, Clean;
    var groups := mrs.Groups(cfg, budget);
    RowsAt(mrs, cfg, budget, g);
    RecordAt(mrs, cfg, budget, g, i);
    if g == 6 {
      AlertsAllOrNothing(mrs, cfg, budget);
      var s, l := AlertWindowIndices(mrs, i);
      AlertReferences(mrs, cfg, budget, i, s, l);
      h, j := 5, if k == 0 then s else l;
    } else if g == 0 {
      TargetReferences(mrs);
      assert false;
      h, j := 0, 0;
    } else {
      KindReferences(mrs, mrs.Windows()[i], budget);
      RecordingReferences(mrs, cfg, budget, i);
      h, j := if g == 3 then k + 1 else g - 1, i;
    }
  }

  lemma TargetReferences(mrs: MonitoringRuleSet)
    requires mrs.slo.spec.targets != []
    ensures References(mrs.TargetRule().expr) == []
  {
  }

  /**
   The emitted rules are closed and unambiguous exactly when the SLI has a good query and no user
   label is keyed `window`.
   */
  lemma WellReferencedIff(mrs: MonitoringRuleSet, cfg: Config, budget: real)
    requires mrs.slo.spec.targets != [] && Clean(mrs)
    ensures WellReferenced(mrs.Groups(cfg, budget))
       <==> mrs.HasGoodQuery() && "window" !in UserLabels(mrs.slo.meta.labels)
  {
    hide MonitoringRuleSet.Groups, UserLabels, SelectsOnly, MonitoringRuleSet.HasGoodQuery, Clean, References;
    var groups := mrs.Groups(cfg, budget);
    if mrs.HasGoodQuery() && "window" !in UserLabels(mrs.slo.meta.labels) {
      forall g, i, k | At(groups, g, i) && 0 <= k < |References(groups[g].rules[i].expr)|
        ensures Resolved(groups, References(groups[g].rules[i].expr)[k])
      {
        var h, j := ReferenceResolved(mrs, cfg, budget, g, i, k);
      }
    } else if !mrs.HasGoodQuery() {
      BadReferenceOpen(mrs, cfg, budget);
    } else {
      WindowReferenceAmbiguous(mrs, cfg, budget);
    }
  }

  lemma FirstWindow(mrs: MonitoringRuleSet)
    ensures |mrs.Windows()| >= 2
  {
    WindowsInOrder(mrs);
    assert "5m" in ALERT_WINDOWS && "30m" in ALERT_WINDOWS;
    var i :| 0 <= i < |mrs.Windows()| && mrs.Windows()[i] == "5m";
    var j :| 0 <= j < |mrs.Windows()| && mrs.Windows()[j] == "30m";
    assert |"5m"| != |"30m"|;
  }

  /** With only a bad query, the good rule reads a record nobody emits. */
  lemma BadReferenceOpen(mrs: MonitoringRuleSet, cfg: Config, budget: real)
    requires mrs.slo.spec.targets != [] && !mrs.HasGoodQuery()
    ensures !WellReferenced(mrs.Groups(cfg, budget))
    ensures forall rule :: Emitted(mrs.Groups(cfg, budget), rule) ==> rule.record != BAD_RECORD
  {
    hide MonitoringRuleSet.Groups, MonitoringRuleSet.Windows, MonitoringRuleSet.RuleOf, References,
      MonitoringRuleSet.HasGoodQuery, RecordOf, MonitoringRuleSet.RuleLabels, ParseSelector, Matches;
    var groups := mrs.Groups(cfg, budget);
    forall g, i | At(groups, g, i)
      ensures groups[g].rules[i].record != BAD_RECORD
    {
      RecordAt(mrs, cfg, budget, g, i);
      RecordsDiffer(Bad, Bad);
      BadRecordNamed();
      if 1 <= g <= 5 { RecordsDiffer(KindAt(g), Bad); }
    }
    FirstWindow(mrs);
    RowsAt(mrs, cfg, budget, 1);
    RowEntry(mrs, Good, budget, 0);
    KindReferences(mrs, mrs.Windows()[0], budget);
    assert At(groups, 1, 0) && References(groups[1].rules[0].expr)[1] == Ref(BAD_RECORD, "");
    assert !Resolved(groups, Ref(BAD_RECORD, ""));
  }

  lemma BadRecordNamed()
    ensures RecordOf(Bad) == BAD_RECORD && BAD_RECORD != ""
  {
  }

  /** A user label keyed `window` makes every total rule match the first measurement's reference. */
  lemma WindowReferenceAmbiguous(mrs: MonitoringRuleSet, cfg: Config, budget: real)
    requires mrs.slo.spec.targets != [] && Clean(mrs) && "window" in UserLabels(mrs.slo.meta.labels)
    ensures !WellReferenced(mrs.Groups(cfg, budget))
  {
    hide MonitoringRuleSet.Groups, MonitoringRuleSet.Windows, MonitoringRuleSet.RuleOf, References, UserLabels,
      RecordOf, MonitoringRuleSet.RuleLabels, ParseSelector, PrintSelector, Matches, Visible;
    var groups := mrs.Groups(cfg, budget);
    var ws := mrs.Windows();
    FirstWindow(mrs);
    var total := mrs.RuleOf(Total, ws[0], budget);
    var r := Reference(total);
    SelectorRoundTrip(mrs.RuleLabels(ws[0]));
    MatchesSelf(mrs.RuleLabels(ws[0]));
    RecordsDiffer(Total, Total);
    forall i | 0 <= i < 2
      ensures At(groups, 2, i) && Selects(r, groups[2].rules[i])
    {
      RowsAt(mrs, cfg, budget, 2);
      RowEntry(mrs, Total, budget, i);
      RuleOfKind(mrs, Total, ws[0], budget);
      RuleOfKind(mrs, Total, ws[i], budget);
      SameLabels(mrs, ws[0], ws[i]);
    }
    assert At(groups, 2, 0) && At(groups, 2, 1);
    assert Selects(r, groups[2].rules[0]) && Selects(r, groups[2].rules[1]);
    assert !Resolved(groups, r);
    RowsAt(mrs, cfg, budget, 3);
    RowEntry(mrs, Measurement, budget, 0);
    KindReferences(mrs, ws[0], budget);
    assert At(groups, 3, 0) && References(groups[3].rules[0].expr)[1] == r;
  }

  /** A rank strictly decreases along every resolved reference, so no rule depends on itself. */
  lemma ReferencesAcyclic(mrs: MonitoringRuleSet, cfg: Config, budget: real, g: int, i: int, k: int, h: int, j: int)
    requires mrs.slo.spec.targets != [] && Clean(mrs) && "window" !in UserLabels(mrs.slo.meta.labels)
    requires mrs.HasGoodQuery()
    requires Resolves(mrs.Groups(cfg, budget), g, i, k, h, j)
    ensures Layer(h) < Layer(g)
    ensures 1 <= g <= 5 ==> mrs.Groups(cfg, budget)[g].rules[i].labels == mrs.Groups(cfg, budget)[h].rules[j].labels
  {
    hide MonitoringRuleSet.Groups, UserLabels, MonitoringRuleSet.HasGoodQuery, Clean, References,
      MonitoringRuleSet.Windows, MonitoringRuleSet.RuleOf, RecordOf, MonitoringRuleSet.RuleLabels;
    var h', j' := ReferenceResolved(mrs, cfg, budget, g, i, k);
    assert h' == h && j' == j;
    RecordAt(mrs, cfg, budget, g, i);
    RecordAt(mrs, cfg, budget, h, j);
  }
}
