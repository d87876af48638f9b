/**
 What the compiled recording rules mean.  In every database stable for the emitted rules, recorded burn
 rates are the error ratios over the printed budget.  The intended meaning is section 6, "Multiwindow,
 Multi-Burn-Rate Alerts", of "Alerting on SLOs" in the Google SRE Workbook.
 */
module RuleMeaning {
  import opened Text
  import opened Selectors
  import opened FixedPoint
  import opened Api
  import opened RuleCompiler
  import opened RuleTable
  import opened RuleReferences
  import opened PromQL
  import opened EmittedRules

  /** Event counts per window: good and total. */
  type Counts = string -> real

  const GROUP_KEYS := {"namespace", "service", "sli_name", "slo_name"}

  /** One sample, carrying at most the labels the aggregation keeps. */
  ghost predicate OneSample(v: Vector, x: real)
  {
    exists l: Labels :: l.Keys <= GROUP_KEYS && v == map[l := x]
  }

  /**
   The good and the total query, aggregated over each window, give one sample, with a positive total and a
   non-negative good count.
   */
  ghost predicate Sampled(mrs: MonitoringRuleSet, queries: Queries, good: Counts, total: Counts)
  {
    forall w | w in mrs.Windows() ::
      && OneSample(queries(Counted(mrs.sli, mrs.sli.spec.ratio.good.query, w)), good(w))
      && OneSample(queries(Counted(mrs.sli, mrs.sli.spec.ratio.total.query, w)), total(w))
      && total(w) > 0.0 && good(w) >= 0.0
  }

  /** The rule sets whose references are closed and unambiguous. */
  ghost predicate Wired(mrs: MonitoringRuleSet)
  {
    && mrs.slo.spec.targets != [] && Clean(mrs)
    && mrs.sli.spec.ratio.good.query != "" && "window" !in UserLabels(mrs.slo.meta.labels)
  }

  // ----- Intended values -----

  function ErrorRatio(good: real, total: real): real
    requires total != 0.0
  {
    1.0 - Min(good / total, 1.0)
  }

  /** What each kind of rule should record for a window; `printed` is the budget as printed. */
  function Intended(kind: Kind, good: real, total: real, printed: real): real
    requires total != 0.0 && printed != 0.0
  {
    match kind
    case Total => total
    case Good => good
    case Bad => 0.0
    case Measurement => Min(good / total, 1.0)
    case Ratio => ErrorRatio(good, total)
    case BurnRate => ErrorRatio(good, total) / printed
  }

  /** The database holds exactly the kind's intended series. */
  ghost predicate Holds(
    mrs: MonitoringRuleSet, db: Database, kind: Kind, good: Counts, total: Counts, printed: real)
    requires printed != 0.0 && forall w | w in mrs.Windows() :: total(w) != 0.0
  {
    && (forall w | w in mrs.Windows() ::
          && Series(RecordOf(kind), mrs.RuleLabels(w)) in db
          && db[Series(RecordOf(kind), mrs.RuleLabels(w))] == Intended(kind, good(w), total(w), printed))
    && (forall s | s in db && s.record == RecordOf(kind) ::
          exists w :: w in mrs.Windows() && s.labels == mrs.RuleLabels(w))
  }

  // ----- Selecting a layer -----

  lemma SelectLayer(
    mrs: MonitoringRuleSet, db: Database, kind: Kind, good: Counts, total: Counts, printed: real, w: string)
    requires Wired(mrs) && printed != 0.0 && w in mrs.Windows()
    requires forall v | v in mrs.Windows() :: total(v) != 0.0
    requires Holds(mrs, db, kind, good, total, printed)
    ensures Select(db, Ref(RecordOf(kind), PrintSelector(mrs.RuleLabels(w))))
         == map[mrs.RuleLabels(w) := Intended(kind, good(w), total(w), printed)]
  {
    hide MonitoringRuleSet.Windows, UserLabels, ParseSelector, PrintSelector, MonitoringRuleSet.RuleLabels,
      RecordOf, Matches, Visible, Intended, MonitoringRuleSet.HasGoodQuery;
    var labels := mrs.RuleLabels(w);
    var x := Select(db, Ref(RecordOf(kind), PrintSelector(labels)));
    SelectorPicksWindow(mrs, w, w);
    var s := Series(RecordOf(kind), labels);
    assert s in db && Matches(s.labels, Visible(labels));
    assert labels in x;
    forall l | l in x ensures l == labels {
      var t := Series(RecordOf(kind), l);
      assert t in db;
      var v :| v in mrs.Windows() && t.labels == mrs.RuleLabels(v);
      SelectorPicksWindow(mrs, v, w);
    }
    assert x.Keys == {labels};
    assert x[labels] == db[s];
    assert x == map[labels := db[s]];
  }

  // ----- One recording rule -----

  /** What a rule of each kind writes, the layer below holding what it should. */
  lemma GoodTotalOutput(
    mrs: MonitoringRuleSet, db: Database, queries: Queries, good: Counts, total: Counts, w: string)
    requires Wired(mrs) && Sampled(mrs, queries, good, total) && w in mrs.Windows()
    ensures Output(mrs.GoodRule(w), db, queries) == map[mrs.RuleLabels(w) := good(w)]
    ensures Output(mrs.TotalRule(w), db, queries) == map[mrs.RuleLabels(w) := total(w)]
  {
    hide MonitoringRuleSet.Windows, UserLabels, Relabelled, MonitoringRuleSet.RuleLabels;
    GroupKeysCovered(mrs, w);
    CountedRules(mrs, w);
    var l: Labels :| l.Keys <= GROUP_KEYS && queries(mrs.GoodRule(w).expr) == map[l := good(w)];
    RelabelledOne(l, mrs.RuleLabels(w), good(w));
    var k: Labels :| k.Keys <= GROUP_KEYS && queries(mrs.TotalRule(w).expr) == map[k := total(w)];
    RelabelledOne(k, mrs.RuleLabels(w), total(w));
  }

  lemma GroupKeysCovered(mrs: MonitoringRuleSet, w: string)
    ensures GROUP_KEYS <= mrs.RuleLabels(w).Keys
  {
    hide UserLabels;
  }

  lemma MeasurementOutput(
    mrs: MonitoringRuleSet, db: Database, queries: Queries, good: Counts, total: Counts, printed: real, w: string)
    requires Wired(mrs) && printed != 0.0 && w in mrs.Windows()
    requires forall v | v in mrs.Windows() :: total(v) != 0.0
    requires Holds(mrs, db, Good, good, total, printed) && Holds(mrs, db, Total, good, total, printed)
    ensures Output(mrs.MeasurementRule(w), db, queries) == map[mrs.RuleLabels(w) := Min(good(w) / total(w), 1.0)]
  {
    hide Holds, MonitoringRuleSet.Windows, Relabelled, MonitoringRuleSet.RuleLabels, PrintSelector, Select,
      MonitoringRuleSet.GoodRule, MonitoringRuleSet.TotalRule, RecordOf, Wired;
    SelectLayer(mrs, db, Good, good, total, printed, w);
    SelectLayer(mrs, db, Total, good, total, printed, w);
    GoodTotalLabelled(mrs, w);
    var l := mrs.RuleLabels(w);
    var x, y: Vector := map[l := good(w)], map[l := total(w)];
    assert CappedQuotients(x, y) == map[l := Min(good(w) / total(w), 1.0)];
    RelabelledOne(l, l, Min(good(w) / total(w), 1.0));
  }

  lemma GoodTotalLabelled(mrs: MonitoringRuleSet, w: string)
    ensures Reference(mrs.GoodRule(w)) == Ref(RecordOf(Good), PrintSelector(mrs.RuleLabels(w)))
    ensures Reference(mrs.TotalRule(w)) == Ref(RecordOf(Total), PrintSelector(mrs.RuleLabels(w)))
  {
    RuleOfKind(mrs, Good, w, 1.0);
    RuleOfKind(mrs, Total, w, 1.0);
    assert mrs.RuleOf(Good, w, 1.0) == mrs.GoodRule(w) && mrs.RuleOf(Total, w, 1.0) == mrs.TotalRule(w);
    hide PrintSelector, MonitoringRuleSet.RuleLabels;
  }

  lemma RatioOutput(
    mrs: MonitoringRuleSet, db: Database, queries: Queries, good: Counts, total: Counts, printed: real, w: string)
    requires Wired(mrs) && printed != 0.0 && w in mrs.Windows()
    requires forall v | v in mrs.Windows() :: total(v) != 0.0
    requires Holds(mrs, db, Measurement, good, total, printed)
    ensures Output(mrs.RatioRule(w), db, queries) == map[mrs.RuleLabels(w) := ErrorRatio(good(w), total(w))]
  {
    hide Holds, MonitoringRuleSet.Windows, Relabelled, MonitoringRuleSet.RuleLabels, PrintSelector, Select, Wired;
    SelectLayer(mrs, db, Measurement, good, total, printed, w);
    var l := mrs.RuleLabels(w);
    var x: Vector := map[l := Min(good(w) / total(w), 1.0)];
    assert Complements(x) == map[l := ErrorRatio(good(w), total(w))];
    RelabelledOne(l, l, ErrorRatio(good(w), total(w)));
  }

  lemma BurnRateOutput(
    mrs: MonitoringRuleSet, db: Database, queries: Queries, good: Counts, total: Counts, budget: real, w: string)
    requires Wired(mrs) && Rounded(budget, 10) != 0.0 && w in mrs.Windows()
    requires forall v | v in mrs.Windows() :: total(v) != 0.0
    requires Holds(mrs, db, Ratio, good, total, Rounded(budget, 10))
    ensures Output(mrs.BurnRateRule(w, budget), db, queries)
         == map[mrs.RuleLabels(w) := ErrorRatio(good(w), total(w)) / Rounded(budget, 10)]
  {
    hide Holds, MonitoringRuleSet.Windows, Relabelled, MonitoringRuleSet.RuleLabels, PrintSelector, Select, Wired,
      PrintFixed, ParseFixed, Rounded, ErrorRatio;
    SelectLayer(mrs, db, Ratio, good, total, Rounded(budget, 10), w);
    ParsePrinted(budget, 10);
    var l := mrs.RuleLabels(w);
    var e := ErrorRatio(good(w), total(w));
    var x: Vector := map[l := e];
    assert Divided(x, Some(Rounded(budget, 10))) == map[l := e / Rounded(budget, 10)];
    RelabelledOne(l, l, e / Rounded(budget, 10));
  }

  /** What every recording rule writes in a database whose lower layers are right. */
  lemma KindOutput(
    mrs: MonitoringRuleSet, db: Database, queries: Queries, kind: Kind, good: Counts, total: Counts, budget: real,
    w: string)
    requires Wired(mrs) && Sampled(mrs, queries, good, total) && Rounded(budget, 10) != 0.0
    requires w in mrs.Windows() && kind != Bad
    requires LowerHold(mrs, db, kind, good, total, Rounded(budget, 10))
    ensures Output(mrs.RuleOf(kind, w, budget), db, queries)
         == map[mrs.RuleLabels(w) := Intended(kind, good(w), total(w), Rounded(budget, 10))]
  {
    hide Holds, MonitoringRuleSet.Windows, MonitoringRuleSet.RuleLabels, Output, Wired, Rounded,
      MonitoringRuleSet.GoodRule, MonitoringRuleSet.TotalRule, MonitoringRuleSet.MeasurementRule,
      MonitoringRuleSet.RatioRule, MonitoringRuleSet.BurnRateRule, ErrorRatio;
    match kind
    case Good => GoodTotalOutput(mrs, db, queries, good, total, w);
    case Total => GoodTotalOutput(mrs, db, queries, good, total, w);
    case Measurement => MeasurementOutput(mrs, db, queries, good, total, Rounded(budget, 10), w);
    case Ratio => RatioOutput(mrs, db, queries, good, total, Rounded(budget, 10), w);
    case BurnRate => BurnRateOutput(mrs, db, queries, good, total, budget, w);
  }

  // ----- Stable databases -----

  /** Emitted rules with a kind's record name are that kind's rules. */
  lemma EmittedKind(mrs: MonitoringRuleSet, cfg: Config, budget: real, kind: Kind, rule: Rule)
    requires mrs.slo.spec.targets != [] && kind != Bad
    requires Emitted(mrs.Groups(cfg, budget), rule) && rule.record == RecordOf(kind)
    ensures exists w :: w in mrs.Windows() && rule == mrs.RuleOf(kind, w, budget)
  {
    hide MonitoringRuleSet.Groups, MonitoringRuleSet.Windows, MonitoringRuleSet.RuleOf, RecordOf,
      MonitoringRuleSet.RuleLabels;
    var groups := mrs.Groups(cfg, budget);
    var g, i :| 0 <= g < |groups| && 0 <= i < |groups[g].rules| && groups[g].rules[i] == rule;
    assert At(groups, g, i);
    RecordAt(mrs, cfg, budget, g, i);
    RecordsDiffer(kind, kind);
    if 1 <= g <= 5 { RecordsDiffer(KindAt(g), kind); }
    assert mrs.Windows()[i] in mrs.Windows();
  }

  lemma KindEmitted(mrs: MonitoringRuleSet, cfg: Config, budget: real, kind: Kind, w: string)
    requires mrs.slo.spec.targets != [] && kind != Bad && w in mrs.Windows()
    ensures Emitted(mrs.Groups(cfg, budget), mrs.RuleOf(kind, w, budget))
  {
    hide MonitoringRuleSet.Groups, MonitoringRuleSet.Windows, MonitoringRuleSet.RuleOf;
    var i :| 0 <= i < |mrs.Windows()| && mrs.Windows()[i] == w;
    RowsAt(mrs, cfg, budget, GroupOf(kind));
    RowEntry(mrs, kind, budget, i);
    assert KindAt(GroupOf(kind)) == kind;
    assert At(mrs.Groups(cfg, budget), GroupOf(kind), i);
  }

  /** What a kind's layer is computed from. */
  ghost predicate LowerHold(
    mrs: MonitoringRuleSet, db: Database, kind: Kind, good: Counts, total: Counts, printed: real)
    requires printed != 0.0 && forall w | w in mrs.Windows() :: total(w) != 0.0
  {
    && (kind == Measurement ==>
          Holds(mrs, db, Good, good, total, printed) && Holds(mrs, db, Total, good, total, printed))
    && (kind == Ratio ==> Holds(mrs, db, Measurement, good, total, printed))
    && (kind == BurnRate ==> Holds(mrs, db, Ratio, good, total, printed))
  }

  lemma SeriesRecorded(
    mrs: MonitoringRuleSet, cfg: Config, db: Database, queries: Queries, kind: Kind, good: Counts, total: Counts,
    budget: real, w: string)
    requires Wired(mrs) && Sampled(mrs, queries, good, total) && Rounded(budget, 10) != 0.0 && kind != Bad
    requires Stable(mrs.Groups(cfg, budget), queries, db) && w in mrs.Windows()
    requires LowerHold(mrs, db, kind, good, total, Rounded(budget, 10))
    ensures Series(RecordOf(kind), mrs.RuleLabels(w)) in db
    ensures db[Series(RecordOf(kind), mrs.RuleLabels(w))] == Intended(kind, good(w), total(w), Rounded(budget, 10))
  {
    hide MonitoringRuleSet.Windows, MonitoringRuleSet.RuleLabels, Output, Rounded, UserLabels, Clean, Holds,
      MonitoringRuleSet.RuleOf, MonitoringRuleSet.Groups, RecordOf, Intended, Emitted, Explained, Wired;
    RecordsDiffer(kind, kind);
    WiredTargets(mrs);
    KindEmitted(mrs, cfg, budget, kind, w);
    RuleOfKind(mrs, kind, w, budget);
    KindOutput(mrs, db, queries, kind, good, total, budget, w);
    assert mrs.RuleLabels(w) in Output(mrs.RuleOf(kind, w, budget), db, queries);
  }

  lemma WiredTargets(mrs: MonitoringRuleSet)
    requires Wired(mrs)
    ensures mrs.slo.spec.targets != []
  {
    hide UserLabels, Clean;
  }

  lemma SeriesExplained(
    mrs: MonitoringRuleSet, cfg: Config, db: Database, queries: Queries, kind: Kind, good: Counts, total: Counts,
    budget: real, s: Series)
    requires Wired(mrs) && Sampled(mrs, queries, good, total) && Rounded(budget, 10) != 0.0 && kind != Bad
    requires s.record == RecordOf(kind) && Explained(mrs.Groups(cfg, budget), queries, db, s)
    requires LowerHold(mrs, db, kind, good, total, Rounded(budget, 10))
    ensures exists w :: w in mrs.Windows() && s.labels == mrs.RuleLabels(w)
  {
    hide MonitoringRuleSet.Windows, MonitoringRuleSet.RuleLabels, Output, Rounded, UserLabels, Clean, Holds,
      MonitoringRuleSet.RuleOf, MonitoringRuleSet.Groups, RecordOf, Intended, Emitted, Wired;
    WiredTargets(mrs);
    var rule :| Emitted(mrs.Groups(cfg, budget), rule) && Writes(rule, db, queries, s);
    EmittedKind(mrs, cfg, budget, kind, rule);
    var w :| w in mrs.Windows() && rule == mrs.RuleOf(kind, w, budget);
    KindOutput(mrs, db, queries, kind, good, total, budget, w);
  }

  /** One layer of a stable database is right when the layers below are. */
  lemma LayerHolds(
    mrs: MonitoringRuleSet, cfg: Config, db: Database, queries: Queries, kind: Kind, good: Counts, total: Counts,
    budget: real)
    requires Wired(mrs) && Sampled(mrs, queries, good, total) && Rounded(budget, 10) != 0.0 && kind != Bad
    requires Stable(mrs.Groups(cfg, budget), queries, db)
    requires LowerHold(mrs, db, kind, good, total, Rounded(budget, 10))
    ensures Holds(mrs, db, kind, good, total, Rounded(budget, 10))
  {
    hide MonitoringRuleSet.Windows, MonitoringRuleSet.RuleLabels, Output, Rounded, RecordOf, Intended, Emitted,
      Wired, LowerHold, Explained, MonitoringRuleSet.Groups, Writes;
    WiredTargets(mrs);
    forall w | w in mrs.Windows()
      ensures Series(RecordOf(kind), mrs.RuleLabels(w)) in db
      ensures db[Series(RecordOf(kind), mrs.RuleLabels(w))] == Intended(kind, good(w), total(w), Rounded(budget, 10))
    {
      SeriesRecorded(mrs, cfg, db, queries, kind, good, total, budget, w);
    }
    forall s | s in db && s.record == RecordOf(kind)
      ensures exists w :: w in mrs.Windows() && s.labels == mrs.RuleLabels(w)
    {
      SeriesExplained(mrs, cfg, db, queries, kind, good, total, budget, s);
    }
  }

  /** Every layer of a stable database holds what it should. */
  lemma StableHolds(
    mrs: MonitoringRuleSet, cfg: Config, db: Database, queries: Queries, good: Counts, total: Counts, budget: real)
    requires Wired(mrs) && Sampled(mrs, queries, good, total) && Rounded(budget, 10) != 0.0
    requires Stable(mrs.Groups(cfg, budget), queries, db)
    ensures forall kind | kind != Bad :: Holds(mrs, db, kind, good, total, Rounded(budget, 10))
  {
    hide Holds, Wired, Stable, Rounded, MonitoringRuleSet.Windows;
    LayerHolds(mrs, cfg, db, queries, Good, good, total, budget);
    LayerHolds(mrs, cfg, db, queries, Total, good, total, budget);
    LayerHolds(mrs, cfg, db, queries, Measurement, good, total, budget);
    LayerHolds(mrs, cfg, db, queries, Ratio, good, total, budget);
    LayerHolds(mrs, cfg, db, queries, BurnRate, good, total, budget);
    forall kind: Kind | kind != Bad ensures Holds(mrs, db, kind, good, total, Rounded(budget, 10)) {
      match kind
      case Good =>
      case Total =>
      case Measurement =>
      case Ratio =>
      case BurnRate =>
    }
  }
}
