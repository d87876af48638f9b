/**
 Alerts over compiled rules: when they fire under either way of pairing `and`, which ones can fire at all,
 exactly when they mean what the SLO asks for, and that the rules have one stable database for every
 choice of raw query results.
 */
module AlertMeaning {
  import opened Text
  import opened Selectors
  import opened FixedPoint
  import opened Api
  import opened RuleCompiler
  import opened RuleTable
  import opened RuleReferences
  import opened PromQL
  import opened EmittedRules
  import opened RuleMeaning

  /** A window consumes its budget faster than `threshold` times the budgeted rate. */
  predicate Exceeds(good: real, total: real, threshold: real, budget: real)
  {
    total - good > threshold * budget * total
  }

  // ----- Arithmetic -----

  lemma QuotientAbove(x: real, y: real, t: real)
    requires y > 0.0
    ensures x / y > t <==> x > t * y
  {
    var q := x / y;
    assert q * y == x;
    if q > t { assert (q - t) * y > 0.0; }
    if x > t * y { assert (q - t) * y > 0.0; }
  }

  lemma ErrorRatioAbove(good: real, total: real, limit: real)
    requires total > 0.0 && good >= 0.0 && limit >= 0.0
    ensures ErrorRatio(good, total) > limit <==> total - good > limit * total
  {
    var q := good / total;
    assert q * total == good;
    var d := 1.0 - q - limit;
    assert d * total == total - good - limit * total;
    if d > 0.0 { assert d * total > 0.0; }
    if d <= 0.0 { assert d * total <= 0.0; }
  }

  lemma ErrorRatioBounds(good: real, total: real)
    requires total > 0.0 && good >= 0.0
    ensures 0.0 <= ErrorRatio(good, total) <= 1.0
  {
    var q := good / total;
    assert q * total == good;
    CancelUp(0.0, q, total);
  }

  lemma QuotientBounds(x: real, y: real)
    requires 0.0 <= x <= 1.0 && y > 0.0
    ensures 0.0 <= x / y <= 1.0 / y
  {
    var q, r := x / y, 1.0 / y;
    assert q * y == x && r * y == 1.0;
    CancelUp(0.0, q, y);
    CancelUp(q, r, y);
  }

  /** A recorded burn rate passes a threshold exactly when the window exceeds it, and a negative one always. */
  lemma BurnRateAbove(good: real, total: real, threshold: real, budget: real)
    requires total > 0.0 && good >= 0.0 && budget > 0.0
    ensures ErrorRatio(good, total) / budget > threshold <==> threshold < 0.0 || Exceeds(good, total, threshold, budget)
  {
    hide ErrorRatio;
    QuotientAbove(ErrorRatio(good, total), budget, threshold);
    if threshold >= 0.0 {
      ScaleUp(0.0, threshold, budget);
      ErrorRatioAbove(good, total, threshold * budget);
    } else {
      ErrorRatioBounds(good, total);
      QuotientBounds(ErrorRatio(good, total), budget);
    }
  }

  // ----- Alert values -----

  lemma SameButWindow(mrs: MonitoringRuleSet, v: string, w: string)
    requires "window" !in UserLabels(mrs.slo.meta.labels)
    ensures mrs.RuleLabels(v) - {"window"} == mrs.RuleLabels(w) - {"window"}
  {
    hide UserLabels;
    assert mrs.BaseLabels(v) - {"window"} == mrs.BaseLabels(w) - {"window"};
    forall k | k in mrs.RuleLabels(v) && k != "window" && k !in UserLabels(mrs.slo.meta.labels)
      ensures k in mrs.BaseLabels(w) && mrs.BaseLabels(w)[k] == mrs.BaseLabels(v)[k]
    {
      assert k in mrs.BaseLabels(v) - {"window"};
    }
    forall k | k in mrs.RuleLabels(w) && k != "window" && k !in UserLabels(mrs.slo.meta.labels)
      ensures k in mrs.BaseLabels(v)
    {
      assert k in mrs.BaseLabels(w) - {"window"};
    }
  }

  lemma AndOfOne(a: Labels, x: real, b: Labels, y: real, limit: real, pairing: Pairing)
    ensures And(Above(map[a := x], Some(limit)), Above(map[b := y], Some(limit)), pairing) != EMPTY
       <==> x > limit && y > limit && PairingKey(pairing, a) == PairingKey(pairing, b)
  {
    hide PairingKey;
    var p, q := Above(map[a := x], Some(limit)), Above(map[b := y], Some(limit));
    var v := And(p, q, pairing);
    assert x > limit ==> a in p;
    assert y > limit ==> b in q;
    if x > limit && y > limit && PairingKey(pairing, a) == PairingKey(pairing, b) {
      assert a in v;
    } else {
      assert forall l :: l !in v;
      assert v == EMPTY;
    }
  }

  /** The burn rate the rules record for a window. */
  function BurnRateAt(good: Counts, total: Counts, printed: real, w: string): real
    requires total(w) != 0.0 && printed != 0.0
  {
    ErrorRatio(good(w), total(w)) / printed
  }

  /** The value of an alert over two windows in a stable database. */
  lemma AlertValue(
    mrs: MonitoringRuleSet, cfg: Config, budget: real, db: Database, queries: Queries, good: Counts, total: Counts,
    short: string, long: string, severity: Severity, pairing: Pairing)
    requires Wired(mrs) && Sampled(mrs, queries, good, total) && Rounded(budget, 10) != 0.0
    requires Stable(mrs.Groups(cfg, budget), queries, db)
    requires short in mrs.Windows() && long in mrs.Windows()
    ensures
      Fires(mrs.TwoWindowAlert(cfg, mrs.BurnRateRule(short, budget), mrs.BurnRateRule(long, budget), severity),
            db, queries, pairing)
      <==>
      && BurnRateAt(good, total, Rounded(budget, 10), short) > Rounded(Threshold(cfg, severity), 1)
      && BurnRateAt(good, total, Rounded(budget, 10), long) > Rounded(Threshold(cfg, severity), 1)
      && PairingKey(pairing, mrs.RuleLabels(short)) == PairingKey(pairing, mrs.RuleLabels(long))
  {
    hide Holds, MonitoringRuleSet.Windows, MonitoringRuleSet.RuleLabels, PrintSelector, Select, Wired, Stable,
      PrintFixed, ParseFixed, Rounded, ErrorRatio, MonitoringRuleSet.RatioRule, PairingKey, And, Above, Threshold,
      MonitoringRuleSet.Groups, RecordOf;
    StableHolds(mrs, cfg, db, queries, good, total, budget);
    SelectLayer(mrs, db, BurnRate, good, total, Rounded(budget, 10), short);
    SelectLayer(mrs, db, BurnRate, good, total, Rounded(budget, 10), long);
    BurnRateReference(mrs, short, budget);
    BurnRateReference(mrs, long, budget);
    ParsePrinted(Threshold(cfg, severity), 1);
    AndOfOne(mrs.RuleLabels(short), BurnRateAt(good, total, Rounded(budget, 10), short),
             mrs.RuleLabels(long), BurnRateAt(good, total, Rounded(budget, 10), long),
             Rounded(Threshold(cfg, severity), 1), pairing);
  }

  lemma BurnRateReference(mrs: MonitoringRuleSet, w: string, budget: real)
    ensures Reference(mrs.BurnRateRule(w, budget)) == Ref(RecordOf(BurnRate), PrintSelector(mrs.RuleLabels(w)))
  {
    hide MonitoringRuleSet.BurnRateRule, RecordOf, PrintSelector, MonitoringRuleSet.RuleLabels;
    RuleOfKind(mrs, BurnRate, w, budget);
  }

  /** The j-th emitted alert. */
  function AlertAt(mrs: MonitoringRuleSet, cfg: Config, budget: real, j: nat): Rule
    requires j < |mrs.AlertGroup(cfg, budget).rules|
  {
    mrs.AlertGroup(cfg, budget).rules[j]
  }

  lemma AlertIs(mrs: MonitoringRuleSet, cfg: Config, budget: real, j: nat)
    requires j < 4 && "window" !in UserLabels(mrs.slo.meta.labels)
    ensures j < |mrs.AlertGroup(cfg, budget).rules|
    ensures AlertAt(mrs, cfg, budget, j)
         == mrs.TwoWindowAlert(cfg, mrs.BurnRateRule(ALERTS[j].short, budget), mrs.BurnRateRule(ALERTS[j].long, budget),
                               ALERTS[j].severity)
    ensures ALERTS[j].short in mrs.Windows() && ALERTS[j].long in mrs.Windows() && ALERTS[j].short != ALERTS[j].long
  {
    hide MonitoringRuleSet.AlertGroup, MonitoringRuleSet.BurnRateRule, MonitoringRuleSet.Windows, UserLabels,
      IsAlertWindow, MonitoringRuleSet.TwoWindowAlert;
    AlertsAllOrNothing(mrs, cfg, budget);
    AlertPairs(ALERTS[j]);
    AlertWindowsPresent(mrs, ALERTS[j].short);
    AlertWindowsPresent(mrs, ALERTS[j].long);
  }

  /** Both windows of the j-th alert exceed its printed threshold. */
  predicate BothExceed(cfg: Config, budget: real, good: Counts, total: Counts, j: nat)
    requires j < 4
  {
    var t, e := Rounded(Limit(cfg, j), 1), Rounded(budget, 10);
    && Exceeds(good(Short(j)), total(Short(j)), t, e)
    && Exceeds(good(Long(j)), total(Long(j)), t, e)
  }

  /** Its printed threshold is negative, so that every burn rate passes it. */
  predicate Negative(cfg: Config, j: nat)
    requires j < 4
  {
    Rounded(Limit(cfg, j), 1) < 0.0
  }

  /**
   With `and` paired over everything but the window, each alert fires exactly when both of its windows
   consume budget faster than the printed threshold times the printed budget, or the threshold is negative.
   */
  lemma AlertFiresIgnoringWindow(
    mrs: MonitoringRuleSet, cfg: Config, budget: real, db: Database, queries: Queries, good: Counts, total: Counts,
    j: nat)
    requires Wired(mrs) && Sampled(mrs, queries, good, total) && j < 4
    requires Rounded(budget, 10) > 0.0
    requires Stable(mrs.Groups(cfg, budget), queries, db)
    ensures j < |mrs.AlertGroup(cfg, budget).rules|
    ensures Fires(AlertAt(mrs, cfg, budget, j), db, queries, IgnoringWindow)
      <==> Negative(cfg, j) || BothExceed(cfg, budget, good, total, j)
  {
    hide MonitoringRuleSet.AlertGroup, MonitoringRuleSet.BurnRateRule, MonitoringRuleSet.Windows, Rounded,
      Threshold, MonitoringRuleSet.TwoWindowAlert, Stable, Fires, Exceeds, ErrorRatio, MonitoringRuleSet.RuleLabels,
      AlertAt, Clean, UserLabels, MonitoringRuleSet.Groups;
    var a := ALERTS[j];
    AlertTable(cfg, j);
    AlertIs(mrs, cfg, budget, j);
    AlertValue(mrs, cfg, budget, db, queries, good, total, a.short, a.long, a.severity, IgnoringWindow);
    SameButWindow(mrs, a.short, a.long);
    BurnRateAbove(good(a.short), total(a.short), Rounded(Threshold(cfg, a.severity), 1), Rounded(budget, 10));
    BurnRateAbove(good(a.long), total(a.long), Rounded(Threshold(cfg, a.severity), 1), Rounded(budget, 10));
  }

  /**
   Under PromQL's own rule, which pairs the two sides of `and` by all of their labels, no alert ever
   fires: its two windows record series that differ in the window label.
   */
  lemma AlertNeverFiresOnAllLabels(
    mrs: MonitoringRuleSet, cfg: Config, budget: real, db: Database, queries: Queries, good: Counts, total: Counts,
    j: nat)
    requires Wired(mrs) && Sampled(mrs, queries, good, total) && j < 4 && Rounded(budget, 10) > 0.0
    requires Stable(mrs.Groups(cfg, budget), queries, db)
    ensures j < |mrs.AlertGroup(cfg, budget).rules|
    ensures !Fires(AlertAt(mrs, cfg, budget, j), db, queries, OnAllLabels)
  {
    hide MonitoringRuleSet.AlertGroup, MonitoringRuleSet.BurnRateRule, MonitoringRuleSet.Windows, Rounded,
      Threshold, MonitoringRuleSet.TwoWindowAlert, Stable, Fires, Exceeds, ErrorRatio, MonitoringRuleSet.RuleLabels,
      AlertAt, Clean, UserLabels, MonitoringRuleSet.Groups;
    var a := ALERTS[j];
    AlertTable(cfg, j);
    AlertIs(mrs, cfg, budget, j);
    AlertValue(mrs, cfg, budget, db, queries, good, total, a.short, a.long, a.severity, OnAllLabels);
    SameLabels(mrs, a.short, a.long);
  }

  /**
   When an alert fires, for either way of pairing the two sides of `and`: under `IgnoringWindow` exactly when
   both of its windows consume budget faster than the printed threshold times the printed budget, or the
   threshold is negative; and under `OnAllLabels`, which is how PromQL reads the emitted text, never.
   */
  lemma AlertFiresIff(
    mrs: MonitoringRuleSet, cfg: Config, budget: real, db: Database, queries: Queries, good: Counts, total: Counts,
    j: nat, pairing: Pairing)
    requires Wired(mrs) && Sampled(mrs, queries, good, total) && j < 4
    requires Rounded(budget, 10) > 0.0
    requires Stable(mrs.Groups(cfg, budget), queries, db)
    ensures j < |mrs.AlertGroup(cfg, budget).rules|
    ensures Fires(AlertAt(mrs, cfg, budget, j), db, queries, pairing)
      <==> pairing == IgnoringWindow && (Negative(cfg, j) || BothExceed(cfg, budget, good, total, j))
  {
    hide MonitoringRuleSet.AlertGroup, MonitoringRuleSet.BurnRateRule, MonitoringRuleSet.Windows, Rounded,
      Threshold, MonitoringRuleSet.TwoWindowAlert, Stable, Fires, Exceeds, ErrorRatio, MonitoringRuleSet.RuleLabels,
      AlertAt, Clean, UserLabels, MonitoringRuleSet.Groups, Wired, Sampled, PairingKey,
      Negative, BothExceed;
    if pairing == OnAllLabels {
      AlertNeverFiresOnAllLabels(mrs, cfg, budget, db, queries, good, total, j);
    } else {
      AlertFiresIgnoringWindow(mrs, cfg, budget, db, queries, good, total, j);
    }
  }

  /** Recorded burn rates lie between zero and one over the printed budget. */
  lemma BurnRateBounds(
    mrs: MonitoringRuleSet, cfg: Config, budget: real, db: Database, queries: Queries, good: Counts, total: Counts,
    s: Series)
    requires Wired(mrs) && Sampled(mrs, queries, good, total) && Rounded(budget, 10) > 0.0
    requires Stable(mrs.Groups(cfg, budget), queries, db)
    requires s in db && s.record == BURN_RATE_RECORD
    ensures 0.0 <= db[s] <= 1.0 / Rounded(budget, 10)
  {
    hide MonitoringRuleSet.Windows, Rounded, Stable, ErrorRatio, MonitoringRuleSet.RuleLabels, Wired,
      MonitoringRuleSet.Groups;
    StableHolds(mrs, cfg, db, queries, good, total, budget);
    assert Holds(mrs, db, BurnRate, good, total, Rounded(budget, 10));
    var w :| w in mrs.Windows() && s.labels == mrs.RuleLabels(w);
    assert s == Series(BURN_RATE_RECORD, mrs.RuleLabels(w));
    ErrorRatioBounds(good(w), total(w));
    QuotientBounds(ErrorRatio(good(w), total(w)), Rounded(budget, 10));
  }

  // ----- Only a bad query -----

  ghost predicate NoSeries(db: Database, record: string)
  {
    forall s | s in db :: s.record != record
  }

  lemma SelectNothing(db: Database, r: Ref)
    requires NoSeries(db, r.record)
    ensures Select(db, r) == EMPTY
  {
    hide ParseSelector, Matches;
    if ParseSelector(r.matchers).Some? {
      assert Selected(db, r.record, ParseSelector(r.matchers).value) == EMPTY;
    }
  }

  /** A kind whose rules write nothing has no series. */
  lemma SilentKind(mrs: MonitoringRuleSet, cfg: Config, budget: real, db: Database, queries: Queries, kind: Kind)
    requires mrs.slo.spec.targets != [] && kind != Bad && Stable(mrs.Groups(cfg, budget), queries, db)
    requires forall w | w in mrs.Windows() :: Output(mrs.RuleOf(kind, w, budget), db, queries) == EMPTY
    ensures NoSeries(db, RecordOf(kind))
  {
    hide MonitoringRuleSet.Groups, MonitoringRuleSet.Windows, MonitoringRuleSet.RuleOf, RecordOf, Output, Emitted;
    forall s | s in db && s.record == RecordOf(kind)
      ensures false
    {
      assert Explained(mrs.Groups(cfg, budget), queries, db, s);
      var rule :| Emitted(mrs.Groups(cfg, budget), rule) && Writes(rule, db, queries, s);
      EmittedKind(mrs, cfg, budget, kind, rule);
    }
  }

  lemma NothingRelabelled(rule: Rule, db: Database, queries: Queries)
    requires Value(rule.expr, db, queries, OnAllLabels) == EMPTY
    ensures Output(rule, db, queries) == EMPTY
  {
    RelabelledNone(rule.labels);
  }

  lemma BadHasNoSeries(mrs: MonitoringRuleSet, cfg: Config, budget: real, db: Database, queries: Queries)
    requires mrs.slo.spec.targets != [] && mrs.sli.spec.ratio.good.query == ""
    requires Stable(mrs.Groups(cfg, budget), queries, db)
    ensures NoSeries(db, BAD_RECORD)
  {
    hide MonitoringRuleSet.Groups, Emitted, Output;
    BadReferenceOpen(mrs, cfg, budget);
    forall s | s in db ensures s.record != BAD_RECORD {
      assert Explained(mrs.Groups(cfg, budget), queries, db, s);
      var rule :| Emitted(mrs.Groups(cfg, budget), rule) && Writes(rule, db, queries, s);
    }
  }

  lemma SilentGood(mrs: MonitoringRuleSet, budget: real, db: Database, queries: Queries, w: string)
    requires mrs.sli.spec.ratio.good.query == "" && NoSeries(db, BAD_RECORD)
    ensures Output(mrs.RuleOf(Good, w, budget), db, queries) == EMPTY
  {
    hide MonitoringRuleSet.RuleLabels, Select, Output, NoSeries;
    RecordNames();
    var rule := mrs.RuleOf(Good, w, budget);
    assert rule.expr == Difference(TOTAL_RECORD, BAD_RECORD);
    SelectNothing(db, Ref(BAD_RECORD, ""));
    NothingRelabelled(rule, db, queries);
  }

  lemma SilentAbove(mrs: MonitoringRuleSet, budget: real, db: Database, queries: Queries, kind: Kind, w: string)
    requires kind == Measurement ==> NoSeries(db, GOOD_RECORD)
    requires kind == Ratio ==> NoSeries(db, MEASUREMENT_RECORD)
    requires kind == BurnRate ==> NoSeries(db, RATIO_RECORD)
    requires kind in {Measurement, Ratio, BurnRate}
    ensures Output(mrs.RuleOf(kind, w, budget), db, queries) == EMPTY
  {
    hide MonitoringRuleSet.RuleLabels, Select, Output, NoSeries, PrintSelector, PrintFixed, ParseFixed,
      MonitoringRuleSet.GoodRule, MonitoringRuleSet.TotalRule;
    GoodTotalLabelled(mrs, w);
    var matchers := PrintSelector(mrs.RuleLabels(w));
    var below := if kind == Measurement then GOOD_RECORD
      else if kind == Ratio then MEASUREMENT_RECORD else RATIO_RECORD;
    SelectNothing(db, Ref(below, matchers));
    NothingRelabelled(mrs.RuleOf(kind, w, budget), db, queries);
  }

  /** With only a bad query nothing is recorded above the totals. */
  lemma BadOnlySilent(mrs: MonitoringRuleSet, cfg: Config, budget: real, db: Database, queries: Queries)
    requires mrs.slo.spec.targets != [] && mrs.sli.spec.ratio.good.query == ""
    requires Stable(mrs.Groups(cfg, budget), queries, db)
    ensures NoSeries(db, GOOD_RECORD) && NoSeries(db, MEASUREMENT_RECORD)
    ensures NoSeries(db, RATIO_RECORD) && NoSeries(db, BURN_RATE_RECORD)
  {
    hide MonitoringRuleSet.Windows, MonitoringRuleSet.RuleOf, MonitoringRuleSet.Groups, Output, Stable, NoSeries,
      MonitoringRuleSet.HasGoodQuery, RecordOf;
    BadHasNoSeries(mrs, cfg, budget, db, queries);
    KindRecords();
    forall w | w in mrs.Windows() { SilentGood(mrs, budget, db, queries, w); }
    SilentKind(mrs, cfg, budget, db, queries, Good);
    forall w | w in mrs.Windows() { SilentAbove(mrs, budget, db, queries, Measurement, w); }
    SilentKind(mrs, cfg, budget, db, queries, Measurement);
    forall w | w in mrs.Windows() { SilentAbove(mrs, budget, db, queries, Ratio, w); }
    SilentKind(mrs, cfg, budget, db, queries, Ratio);
    forall w | w in mrs.Windows() { SilentAbove(mrs, budget, db, queries, BurnRate, w); }
    SilentKind(mrs, cfg, budget, db, queries, BurnRate);
  }

  /** With only a bad query no alert can fire, whatever the raw queries return and however `and` pairs. */
  lemma BadOnlyNeverFires(
    mrs: MonitoringRuleSet, cfg: Config, budget: real, db: Database, queries: Queries, pairing: Pairing, alert: Rule)
    requires mrs.slo.spec.targets != [] && mrs.sli.spec.ratio.good.query == ""
    requires Stable(mrs.Groups(cfg, budget), queries, db)
    requires alert in mrs.AlertGroup(cfg, budget).rules
    ensures !Fires(alert, db, queries, pairing)
  {
    hide MonitoringRuleSet.Groups, Stable, MonitoringRuleSet.HasGoodQuery, MonitoringRuleSet.AlertGroup, UserLabels,
      MonitoringRuleSet.BurnRateRule, Fires, MonitoringRuleSet.TwoWindowAlert, NoSeries;
    BadOnlySilent(mrs, cfg, budget, db, queries);
    AlertsAllOrNothing(mrs, cfg, budget);
    var i :| 0 <= i < 4 && alert == mrs.TwoWindowAlert(cfg, mrs.BurnRateRule(ALERTS[i].short, budget),
                                            mrs.BurnRateRule(ALERTS[i].long, budget), ALERTS[i].severity);
    SilentAlert(mrs, cfg, budget, db, queries, pairing, ALERTS[i]);
  }

  lemma SilentAlert(
    mrs: MonitoringRuleSet, cfg: Config, budget: real, db: Database, queries: Queries, pairing: Pairing, a: AlertSpec)
    requires NoSeries(db, BURN_RATE_RECORD)
    ensures !Fires(mrs.TwoWindowAlert(cfg, mrs.BurnRateRule(a.short, budget), mrs.BurnRateRule(a.long, budget),
                   a.severity),
                   db, queries, pairing)
  {
    hide MonitoringRuleSet.BurnRateRule, And, Above, ParseFixed, PrintFixed, PrintSelector, RecordOf, Select,
      NoSeries, MonitoringRuleSet.RuleLabels, Threshold;
    KindRecords();
    BurnRateReference(mrs, a.short, budget);
    var short, long := Reference(mrs.BurnRateRule(a.short, budget)), Reference(mrs.BurnRateRule(a.long, budget));
    SelectNothing(db, short);
    var limit := ParseFixed(PrintFixed(Threshold(cfg, a.severity), 1));
    AboveNothing(limit, Above(Select(db, long), limit), pairing);
  }

  lemma KindRecords()
    ensures RecordOf(Good) == GOOD_RECORD && RecordOf(Measurement) == MEASUREMENT_RECORD
    ensures RecordOf(Ratio) == RATIO_RECORD && RecordOf(BurnRate) == BURN_RATE_RECORD
  {
  }

  lemma AboveNothing(limit: Option<real>, y: Vector, pairing: Pairing)
    ensures And(Above(EMPTY, limit), y, pairing) == EMPTY
  {
    assert Above(EMPTY, limit) == EMPTY;
  }

  // ----- The stable database -----

  const RECORDED_KINDS := {Good, Total, Measurement, Ratio, BurnRate}

  lemma RecordedKinds(kind: Kind)
    ensures kind in RECORDED_KINDS <==> kind != Bad
  {
    match kind
    case Good =>
    case Bad =>
    case Total =>
    case Measurement =>
    case Ratio =>
    case BurnRate =>
  }

  function KindOf(record: string): Kind
  {
    if record == GOOD_RECORD then Good
    else if record == TOTAL_RECORD then Total
    else if record == MEASUREMENT_RECORD then Measurement
    else if record == RATIO_RECORD then Ratio
    else BurnRate
  }

  lemma KindOfRecord(kind: Kind)
    requires kind != Bad
    ensures KindOf(RecordOf(kind)) == kind
  {
    RecordsDiffer(kind, Good);
    RecordsDiffer(kind, Total);
    RecordsDiffer(kind, Measurement);
    RecordsDiffer(kind, Ratio);
    RecordsDiffer(kind, BurnRate);
    hide RecordOf;
    KindRecords();
    assert RecordOf(Total) == TOTAL_RECORD by { TotalRecord(); }
  }

  lemma TotalRecord()
    ensures RecordOf(Total) == TOTAL_RECORD
  {
  }

  /** The series of one kind and window. */
  function SeriesOf(mrs: MonitoringRuleSet, kind: Kind, w: string): Series
  {
    Series(RecordOf(kind), mrs.RuleLabels(w))
  }

  /** The intended value of a series, found by its record name and window label. */
  function IntendedAt(s: Series, good: Counts, total: Counts, printed: real): real
    requires printed != 0.0 && total(Get(s.labels, "window")) != 0.0
  {
    Intended(KindOf(s.record), good(Get(s.labels, "window")), total(Get(s.labels, "window")), printed)
  }

  ghost function KindsPart(mrs: MonitoringRuleSet, good: Counts, total: Counts, printed: real): (part: Database)
    requires printed != 0.0 && forall w | w in mrs.Windows() :: total(w) != 0.0
    requires "window" !in UserLabels(mrs.slo.meta.labels)
    ensures forall s :: s in part <==>
      exists kind, w :: kind in RECORDED_KINDS && w in mrs.Windows() && s == SeriesOf(mrs, kind, w)
    ensures forall s | s in part ::
      total(Get(s.labels, "window")) != 0.0 && part[s] == IntendedAt(s, good, total, printed)
  {
    hide MonitoringRuleSet.Windows, UserLabels, IntendedAt, MonitoringRuleSet.RuleLabels, RecordOf;
    WindowsRecovered(mrs);
    var series := set kind, w | kind in RECORDED_KINDS && w in mrs.Windows() :: SeriesOf(mrs, kind, w);
    map s | s in series :: IntendedAt(s, good, total, printed)
  }

  lemma WindowsRecovered(mrs: MonitoringRuleSet)
    requires "window" !in UserLabels(mrs.slo.meta.labels)
    ensures forall w :: Get(mrs.RuleLabels(w), "window") == w
  {
    forall w ensures Get(mrs.RuleLabels(w), "window") == w { RuleWindow(mrs, w); }
  }

  ghost function TargetOutput(mrs: MonitoringRuleSet, queries: Queries): Vector
    requires mrs.slo.spec.targets != []
  {
    Relabelled(queries(mrs.TargetRule().expr), mrs.TargetRule().labels)
  }

  ghost function TargetPart(mrs: MonitoringRuleSet, queries: Queries): (part: Database)
    requires mrs.slo.spec.targets != []
    ensures forall s :: s in part <==> s.record == TARGET_RECORD && s.labels in TargetOutput(mrs, queries)
    ensures forall s | s in part :: part[s] == TargetOutput(mrs, queries)[s.labels]
  {
    var series := set l | l in TargetOutput(mrs, queries) :: Series(TARGET_RECORD, l);
    map s | s in series :: TargetOutput(mrs, queries)[s.labels]
  }

  /** The recorded series once every rule has settled. */
  ghost function Settled(
    mrs: MonitoringRuleSet, queries: Queries, good: Counts, total: Counts, printed: real): Database
    requires printed != 0.0 && forall w | w in mrs.Windows() :: total(w) != 0.0
    requires "window" !in UserLabels(mrs.slo.meta.labels) && mrs.slo.spec.targets != []
  {
    TargetPart(mrs, queries) + KindsPart(mrs, good, total, printed)
  }

  lemma SettledAt(
    mrs: MonitoringRuleSet, queries: Queries, good: Counts, total: Counts, printed: real, kind: Kind, w: string)
    requires printed != 0.0 && forall w | w in mrs.Windows() :: total(w) != 0.0
    requires "window" !in UserLabels(mrs.slo.meta.labels) && mrs.slo.spec.targets != []
    requires kind != Bad && w in mrs.Windows()
    ensures SeriesOf(mrs, kind, w) in Settled(mrs, queries, good, total, printed)
    ensures Settled(mrs, queries, good, total, printed)[SeriesOf(mrs, kind, w)]
         == Intended(kind, good(w), total(w), printed)
  {
    hide UserLabels, MonitoringRuleSet.Windows, MonitoringRuleSet.RuleLabels, Intended, KindsPart, RecordOf,
      TargetPart, KindOf;
    WindowsRecovered(mrs);
    KindOfRecord(kind);
    RecordedKinds(kind);
    assert SeriesOf(mrs, kind, w) in KindsPart(mrs, good, total, printed);
  }

  lemma SettledOnly(
    mrs: MonitoringRuleSet, queries: Queries, good: Counts, total: Counts, printed: real, s: Series)
    requires printed != 0.0 && forall w | w in mrs.Windows() :: total(w) != 0.0
    requires "window" !in UserLabels(mrs.slo.meta.labels) && mrs.slo.spec.targets != []
    requires s in Settled(mrs, queries, good, total, printed)
    ensures s.record == TARGET_RECORD ==>
      && s in TargetPart(mrs, queries)
      && Settled(mrs, queries, good, total, printed)[s] == TargetPart(mrs, queries)[s]
    ensures s.record != TARGET_RECORD ==>
      exists kind, w :: kind != Bad && w in mrs.Windows() && s == SeriesOf(mrs, kind, w)
  {
    hide UserLabels, MonitoringRuleSet.Windows, MonitoringRuleSet.RuleLabels, IntendedAt, KindsPart, RecordOf,
      TargetPart;
    if s in KindsPart(mrs, good, total, printed) {
      var kind, w :| kind in RECORDED_KINDS && w in mrs.Windows() && s == SeriesOf(mrs, kind, w);
      RecordedKinds(kind);
      RecordsDiffer(kind, kind);
    }
  }

  lemma SettledTarget(
    mrs: MonitoringRuleSet, queries: Queries, good: Counts, total: Counts, printed: real, l: Labels)
    requires printed != 0.0 && forall w | w in mrs.Windows() :: total(w) != 0.0
    requires "window" !in UserLabels(mrs.slo.meta.labels) && mrs.slo.spec.targets != []
    requires l in TargetOutput(mrs, queries)
    ensures Series(TARGET_RECORD, l) in Settled(mrs, queries, good, total, printed)
    ensures Settled(mrs, queries, good, total, printed)[Series(TARGET_RECORD, l)] == TargetOutput(mrs, queries)[l]
  {
    hide UserLabels, MonitoringRuleSet.Windows, MonitoringRuleSet.RuleLabels, IntendedAt, KindsPart, RecordOf,
      TargetPart, TargetOutput;
    assert Series(TARGET_RECORD, l) in TargetPart(mrs, queries);
    SettledOnly(mrs, queries, good, total, printed, Series(TARGET_RECORD, l));
  }

  lemma SettledHolds(
    mrs: MonitoringRuleSet, queries: Queries, good: Counts, total: Counts, printed: real, kind: Kind)
    requires printed != 0.0 && forall w | w in mrs.Windows() :: total(w) != 0.0
    requires "window" !in UserLabels(mrs.slo.meta.labels) && mrs.slo.spec.targets != [] && kind != Bad
    ensures Holds(mrs, Settled(mrs, queries, good, total, printed), kind, good, total, printed)
  {
    hide UserLabels, MonitoringRuleSet.Windows, MonitoringRuleSet.RuleLabels, Intended, RecordOf, Settled;
    var db := Settled(mrs, queries, good, total, printed);
    forall w | w in mrs.Windows()
      ensures Series(RecordOf(kind), mrs.RuleLabels(w)) in db
      ensures db[Series(RecordOf(kind), mrs.RuleLabels(w))] == Intended(kind, good(w), total(w), printed)
    {
      SettledAt(mrs, queries, good, total, printed, kind, w);
    }
    forall s | s in db && s.record == RecordOf(kind)
      ensures exists w :: w in mrs.Windows() && s.labels == mrs.RuleLabels(w)
    {
      SettledOnly(mrs, queries, good, total, printed, s);
      RecordsDiffer(kind, kind);
      var k, w :| k != Bad && w in mrs.Windows() && s == SeriesOf(mrs, k, w);
    }
  }

  lemma TargetWrites(mrs: MonitoringRuleSet, db: Database, queries: Queries)
    requires mrs.slo.spec.targets != []
    ensures Output(mrs.TargetRule(), db, queries) == TargetOutput(mrs, queries)
    ensures mrs.TargetRule().record == TARGET_RECORD && TARGET_RECORD != ""
  {
    hide Relabelled, MonitoringRuleSet.RuleLabels;
    assert |TARGET_RECORD| == 15;
  }

  /** An emitted recording rule is the target rule or one of a kind's rules. */
  lemma EmittedCases(mrs: MonitoringRuleSet, cfg: Config, budget: real, rule: Rule)
    requires mrs.slo.spec.targets != [] && rule.record != ""
    ensures Emitted(mrs.Groups(cfg, budget), rule) ==>
      || rule == mrs.TargetRule()
      || exists kind, w :: kind != Bad && w in mrs.Windows() && rule == mrs.RuleOf(kind, w, budget)
    ensures Emitted(mrs.Groups(cfg, budget), mrs.TargetRule())
  {
    hide MonitoringRuleSet.Groups, MonitoringRuleSet.Windows, MonitoringRuleSet.RuleOf, RecordOf,
      MonitoringRuleSet.RuleLabels, MonitoringRuleSet.TargetRule, MonitoringRuleSet.AlertGroup;
    var groups := mrs.Groups(cfg, budget);
    RowsAt(mrs, cfg, budget, 0);
    assert At(groups, 0, 0) && groups[0].rules[0] == mrs.TargetRule();
    if Emitted(groups, rule) {
      var g, i :| 0 <= g < |groups| && 0 <= i < |groups[g].rules| && groups[g].rules[i] == rule;
      assert At(groups, g, i);
      RecordAt(mrs, cfg, budget, g, i);
      if 1 <= g <= 5 {
        assert mrs.Windows()[i] in mrs.Windows();
        assert rule == mrs.RuleOf(KindAt(g), mrs.Windows()[i], budget);
      }
    }
  }

  lemma SettledKindOutput(
    mrs: MonitoringRuleSet, queries: Queries, kind: Kind, good: Counts, total: Counts, budget: real, w: string)
    requires Wired(mrs) && Sampled(mrs, queries, good, total) && Rounded(budget, 10) != 0.0
    requires kind != Bad && w in mrs.Windows()
    ensures Output(mrs.RuleOf(kind, w, budget), Settled(mrs, queries, good, total, Rounded(budget, 10)), queries)
         == map[mrs.RuleLabels(w) := Intended(kind, good(w), total(w), Rounded(budget, 10))]
  {
    hide MonitoringRuleSet.Windows, MonitoringRuleSet.RuleLabels, Output, Rounded, Settled, Holds, Intended,
      MonitoringRuleSet.RuleOf, Clean, UserLabels, MonitoringRuleSet.HasGoodQuery;
    forall k: Kind | k != Bad
      ensures Holds(mrs, Settled(mrs, queries, good, total, Rounded(budget, 10)), k, good, total, Rounded(budget, 10))
    {
      SettledHolds(mrs, queries, good, total, Rounded(budget, 10), k);
    }
    KindOutput(mrs, Settled(mrs, queries, good, total, Rounded(budget, 10)), queries, kind, good, total, budget, w);
  }

  lemma SettledContains(
    mrs: MonitoringRuleSet, cfg: Config, queries: Queries, good: Counts, total: Counts,
    budget: real, rule: Rule, l: Labels)
    requires Wired(mrs) && Sampled(mrs, queries, good, total) && Rounded(budget, 10) != 0.0
    requires Emitted(mrs.Groups(cfg, budget), rule) && rule.record != ""
    requires l in Output(rule, Settled(mrs, queries, good, total, Rounded(budget, 10)), queries)
    ensures var db := Settled(mrs, queries, good, total, Rounded(budget, 10));
      Series(rule.record, l) in db && db[Series(rule.record, l)] == Output(rule, db, queries)[l]
  {
    hide MonitoringRuleSet.Windows, MonitoringRuleSet.RuleLabels, Output, Rounded, Settled, Intended,
      MonitoringRuleSet.RuleOf, Clean, UserLabels, MonitoringRuleSet.Groups, MonitoringRuleSet.HasGoodQuery,
      Emitted, RecordOf, MonitoringRuleSet.TargetRule, TargetOutput;
    var db := Settled(mrs, queries, good, total, Rounded(budget, 10));
    EmittedCases(mrs, cfg, budget, rule);
    TargetWrites(mrs, db, queries);
    if rule == mrs.TargetRule() {
      SettledTarget(mrs, queries, good, total, Rounded(budget, 10), l);
    } else {
      var kind, w :| kind != Bad && w in mrs.Windows() && rule == mrs.RuleOf(kind, w, budget);
      SettledKindOutput(mrs, queries, kind, good, total, budget, w);
      SettledAt(mrs, queries, good, total, Rounded(budget, 10), kind, w);
      RuleOfKind(mrs, kind, w, budget);
    }
  }

  lemma SettledExplained(
    mrs: MonitoringRuleSet, cfg: Config, queries: Queries, good: Counts, total: Counts, budget: real, s: Series)
    requires Wired(mrs) && Sampled(mrs, queries, good, total) && Rounded(budget, 10) != 0.0
    requires s in Settled(mrs, queries, good, total, Rounded(budget, 10))
    ensures Explained(mrs.Groups(cfg, budget), queries, Settled(mrs, queries, good, total, Rounded(budget, 10)), s)
  {
    hide MonitoringRuleSet.Windows, MonitoringRuleSet.RuleLabels, Output, Rounded, Settled, Intended,
      MonitoringRuleSet.RuleOf, Clean, UserLabels, MonitoringRuleSet.Groups, MonitoringRuleSet.HasGoodQuery,
      Emitted, RecordOf, MonitoringRuleSet.TargetRule, TargetOutput;
    var db := Settled(mrs, queries, good, total, Rounded(budget, 10));
    SettledOnly(mrs, queries, good, total, Rounded(budget, 10), s);
    if s.record == TARGET_RECORD {
      TargetWrites(mrs, db, queries);
      EmittedCases(mrs, cfg, budget, mrs.TargetRule());
      assert Writes(mrs.TargetRule(), db, queries, s);
    } else {
      var kind, w :| kind != Bad && w in mrs.Windows() && s == SeriesOf(mrs, kind, w);
      KindEmitted(mrs, cfg, budget, kind, w);
      SettledKindOutput(mrs, queries, kind, good, total, budget, w);
      RuleOfKind(mrs, kind, w, budget);
      RecordsDiffer(kind, kind);
      assert Writes(mrs.RuleOf(kind, w, budget), db, queries, s);
    }
  }

  /** For every choice of samples the compiled rules have a stable database. */
  lemma StableExists(
    mrs: MonitoringRuleSet, cfg: Config, queries: Queries, good: Counts, total: Counts, budget: real)
    requires Wired(mrs) && Sampled(mrs, queries, good, total) && Rounded(budget, 10) != 0.0
    ensures Stable(mrs.Groups(cfg, budget), queries, Settled(mrs, queries, good, total, Rounded(budget, 10)))
  {
    hide MonitoringRuleSet.Windows, Output, Rounded, Settled, Clean, UserLabels, MonitoringRuleSet.Groups, Emitted,
      Explained, MonitoringRuleSet.HasGoodQuery;
    var db := Settled(mrs, queries, good, total, Rounded(budget, 10));
    forall rule, l | Emitted(mrs.Groups(cfg, budget), rule) && rule.record != "" && l in Output(rule, db, queries)
      ensures Series(rule.record, l) in db && db[Series(rule.record, l)] == Output(rule, db, queries)[l]
    {
      SettledContains(mrs, cfg, queries, good, total, budget, rule, l);
    }
    forall s | s in db ensures Explained(mrs.Groups(cfg, budget), queries, db, s) {
      SettledExplained(mrs, cfg, queries, good, total, budget, s);
    }
  }

  lemma StableWithin(
    mrs: MonitoringRuleSet, cfg: Config, a: Database, b: Database, queries: Queries, good: Counts, total: Counts,
    budget: real, s: Series)
    requires Wired(mrs) && Sampled(mrs, queries, good, total) && Rounded(budget, 10) != 0.0
    requires Stable(mrs.Groups(cfg, budget), queries, a) && Stable(mrs.Groups(cfg, budget), queries, b)
    requires s in a
    ensures s in b && b[s] == a[s]
  {
    hide MonitoringRuleSet.Windows, MonitoringRuleSet.RuleLabels, Output, Rounded, Intended,
      MonitoringRuleSet.RuleOf, Clean, UserLabels, MonitoringRuleSet.Groups, MonitoringRuleSet.HasGoodQuery,
      Emitted, RecordOf, MonitoringRuleSet.TargetRule, TargetOutput;
    StableHolds(mrs, cfg, a, queries, good, total, budget);
    StableHolds(mrs, cfg, b, queries, good, total, budget);
    var rule :| Emitted(mrs.Groups(cfg, budget), rule) && Writes(rule, a, queries, s);
    EmittedCases(mrs, cfg, budget, rule);
    TargetWrites(mrs, a, queries);
    TargetWrites(mrs, b, queries);
    assert s == Series(rule.record, s.labels);
    if rule != mrs.TargetRule() {
      var kind, w :| kind != Bad && w in mrs.Windows() && rule == mrs.RuleOf(kind, w, budget);
      RuleOfKind(mrs, kind, w, budget);
      assert Holds(mrs, a, kind, good, total, Rounded(budget, 10));
      assert Holds(mrs, b, kind, good, total, Rounded(budget, 10));
      var v :| v in mrs.Windows() && s.labels == mrs.RuleLabels(v);
    }
  }

  /** The stable database is unique: the rules determine every recorded value. */
  lemma StableUnique(
    mrs: MonitoringRuleSet, cfg: Config, a: Database, b: Database, queries: Queries, good: Counts, total: Counts,
    budget: real)
    requires Wired(mrs) && Sampled(mrs, queries, good, total) && Rounded(budget, 10) != 0.0
    requires Stable(mrs.Groups(cfg, budget), queries, a) && Stable(mrs.Groups(cfg, budget), queries, b)
    ensures a == b
  {
    hide MonitoringRuleSet.Windows, Rounded, Wired, MonitoringRuleSet.Groups, Stable, Sampled;
    forall s | s in a ensures s in b && b[s] == a[s] {
      StableWithin(mrs, cfg, a, b, queries, good, total, budget, s);
    }
    forall s | s in b ensures s in a {
      StableWithin(mrs, cfg, b, a, queries, good, total, budget, s);
    }
  }

  // ----- Which alerts can fire -----

  /** A threshold that an error ratio of one passes. */
  predicate Attainable(threshold: real, budget: real)
  {
    threshold * budget < 1.0
  }

  /** An error ratio of one passes the j-th alert's printed threshold. */
  predicate Reachable(cfg: Config, budget: real, j: nat)
    requires j < 4
  {
    Attainable(Rounded(Limit(cfg, j), 1), Rounded(budget, 10))
  }

  ghost predicate CanFire(mrs: MonitoringRuleSet, cfg: Config, budget: real, j: nat, pairing: Pairing)
    requires mrs.slo.spec.targets != [] && j < |mrs.AlertGroup(cfg, budget).rules|
  {
    exists queries, good, total, db ::
      && Sampled(mrs, queries, good, total) && Stable(mrs.Groups(cfg, budget), queries, db)
      && Fires(AlertAt(mrs, cfg, budget, j), db, queries, pairing)
  }

  lemma NothingExceeds(good: real, total: real, threshold: real, budget: real)
    requires total > 0.0 && good >= 0.0 && !Attainable(threshold, budget)
    ensures !Exceeds(good, total, threshold, budget)
  {
    ScaleUp(1.0, threshold * budget, total);
  }

  predicate DistinctQueries(mrs: MonitoringRuleSet)
  {
    mrs.sli.spec.ratio.good.query != mrs.sli.spec.ratio.total.query
  }

  lemma SampleUnique(v: Vector, x: real, y: real)
    requires OneSample(v, x) && OneSample(v, y)
    ensures x == y
  {
    var a: Labels :| a.Keys <= GROUP_KEYS && v == map[a := x];
    var b: Labels :| b.Keys <= GROUP_KEYS && v == map[b := y];
    assert a in v && v[a] == x;
    assert a in map[b := y];
  }

  /** One query for both good and total never loses an event. */
  lemma SameQueriesSame(mrs: MonitoringRuleSet, queries: Queries, good: Counts, total: Counts, w: string)
    requires !DistinctQueries(mrs) && Sampled(mrs, queries, good, total) && w in mrs.Windows()
    ensures good(w) == total(w)
  {
    hide MonitoringRuleSet.Windows, OneSample;
    SampleUnique(queries(Counted(mrs.sli, mrs.sli.spec.ratio.good.query, w)), good(w), total(w));
  }

  lemma NothingLostNothingExceeds(total: real, threshold: real, budget: real)
    requires total > 0.0 && threshold >= 0.0 && budget > 0.0
    ensures !Exceeds(total, total, threshold, budget)
  {
    ScaleUp(0.0, threshold, budget);
    ScaleUp(0.0, threshold * budget, total);
  }

  function Always(count: real): Counts
  {
    (w: string) => count
  }

  /** One event of the total query, and `count` of any other. */
  function Flat(totalQuery: string, count: real): Queries
  {
    (e: Expr) => if e.Aggregate? && e.metric == totalQuery then map[map[] := 1.0] else map[map[] := count]
  }

  lemma FlatSampled(mrs: MonitoringRuleSet, count: real)
    requires count >= 0.0 && (DistinctQueries(mrs) || count == 1.0)
    ensures Sampled(mrs, Flat(mrs.sli.spec.ratio.total.query, count), Always(count), Always(1.0))
  {
    hide MonitoringRuleSet.Windows;
    var queries := Flat(mrs.sli.spec.ratio.total.query, count);
    forall w | w in mrs.Windows()
      ensures OneSample(queries(Counted(mrs.sli, mrs.sli.spec.ratio.good.query, w)), count)
      ensures OneSample(queries(Counted(mrs.sli, mrs.sli.spec.ratio.total.query, w)), 1.0)
    {
      var l: Labels := map[];
      assert l.Keys <= GROUP_KEYS;
      assert queries(Counted(mrs.sli, mrs.sli.spec.ratio.good.query, w)) == map[l := count];
      assert queries(Counted(mrs.sli, mrs.sli.spec.ratio.total.query, w)) == map[l := 1.0];
    }
  }

  /** The stable database of flat samples. */
  ghost function FlatDatabase(mrs: MonitoringRuleSet, budget: real, count: real): Database
    requires Wired(mrs) && Rounded(budget, 10) != 0.0
  {
    Settled(mrs, Flat(mrs.sli.spec.ratio.total.query, count), Always(count), Always(1.0), Rounded(budget, 10))
  }

  /** What an alert does on flat samples. */
  lemma FlatFires(mrs: MonitoringRuleSet, cfg: Config, budget: real, j: nat, count: real, pairing: Pairing)
    requires Wired(mrs) && j < 4 && count >= 0.0 && (DistinctQueries(mrs) || count == 1.0)
    requires Rounded(budget, 10) > 0.0
    ensures j < |mrs.AlertGroup(cfg, budget).rules|
    ensures var queries := Flat(mrs.sli.spec.ratio.total.query, count); var db := FlatDatabase(mrs, budget, count);
      && Sampled(mrs, queries, Always(count), Always(1.0)) && Stable(mrs.Groups(cfg, budget), queries, db)
      && (Fires(AlertAt(mrs, cfg, budget, j), db, queries, pairing) <==>
            && pairing == IgnoringWindow
            && (Negative(cfg, j) || BothExceed(cfg, budget, Always(count), Always(1.0), j)))
  {
    hide MonitoringRuleSet.AlertGroup, MonitoringRuleSet.Windows, Rounded, Threshold, Stable, Fires, AlertAt, Clean,
      UserLabels, MonitoringRuleSet.Groups, MonitoringRuleSet.HasGoodQuery, Settled, Exceeds, Flat, Sampled,
      DistinctQueries, Negative, BothExceed;
    var queries := Flat(mrs.sli.spec.ratio.total.query, count);
    FlatSampled(mrs, count);
    StableExists(mrs, cfg, queries, Always(count), Always(1.0), budget);
    AlertFiresIff(mrs, cfg, budget, FlatDatabase(mrs, budget, count), queries, Always(count), Always(1.0), j, pairing);
  }

  lemma OutageExceeds(threshold: real, budget: real)
    requires Attainable(threshold, budget)
    ensures Exceeds(0.0, 1.0, threshold, budget)
  {
  }

  /** Samples on which the alert fires if `and` pairs ignoring the window. */
  lemma SomethingFires(mrs: MonitoringRuleSet, cfg: Config, budget: real, j: nat)
    requires Wired(mrs) && j < 4 && Rounded(budget, 10) > 0.0
    requires Negative(cfg, j) || (Reachable(cfg, budget, j) && DistinctQueries(mrs))
    ensures j < |mrs.AlertGroup(cfg, budget).rules| && CanFire(mrs, cfg, budget, j, IgnoringWindow)
  {
    hide MonitoringRuleSet.AlertGroup, MonitoringRuleSet.Windows, Rounded, Threshold, Stable, Fires, AlertAt, Clean,
      UserLabels, MonitoringRuleSet.Groups, MonitoringRuleSet.HasGoodQuery, FlatDatabase, Exceeds, Flat, Sampled,
      DistinctQueries, Negative, Attainable;
    AlertIsEmitted(mrs, cfg, budget, j);
    if Negative(cfg, j) {
      FlatFires(mrs, cfg, budget, j, 1.0, IgnoringWindow);
    } else {
      FlatFires(mrs, cfg, budget, j, 0.0, IgnoringWindow);
      OutageExceeds(Rounded(Limit(cfg, j), 1), Rounded(budget, 10));
    }
  }

  /** Windows that both exceed a threshold that is not negative. */
  lemma ExceedingNeeds(
    mrs: MonitoringRuleSet, cfg: Config, budget: real, j: nat, queries: Queries, good: Counts, total: Counts)
    requires Wired(mrs) && j < 4 && Rounded(budget, 10) > 0.0 && !Negative(cfg, j)
    requires Sampled(mrs, queries, good, total) && BothExceed(cfg, budget, good, total, j)
    ensures Reachable(cfg, budget, j) && DistinctQueries(mrs)
  {
    hide MonitoringRuleSet.AlertGroup, MonitoringRuleSet.Windows, Rounded, Threshold, AlertAt, Clean, UserLabels,
      MonitoringRuleSet.Groups, MonitoringRuleSet.HasGoodQuery, Exceeds, DistinctQueries, Attainable,
      MonitoringRuleSet.BurnRateRule, MonitoringRuleSet.TwoWindowAlert, OneSample;
    var a := ALERTS[j];
    AlertTable(cfg, j);
    var t, e := Rounded(Threshold(cfg, a.severity), 1), Rounded(budget, 10);
    AlertIs(mrs, cfg, budget, j);
    if !Attainable(t, e) {
      NothingExceeds(good(a.short), total(a.short), t, e);
    }
    if !DistinctQueries(mrs) {
      SameQueriesSame(mrs, queries, good, total, a.short);
      NothingLostNothingExceeds(total(a.short), t, e);
    }
  }

  /**
   An alert can fire for some samples exactly when `and` pairs ignoring the window and either its threshold is
   negative, or the threshold times the budget is below one and good and total are not the same query.
   */
  lemma CanFireIff(mrs: MonitoringRuleSet, cfg: Config, budget: real, j: nat, pairing: Pairing)
    requires Wired(mrs) && j < 4 && Rounded(budget, 10) > 0.0
    ensures j < |mrs.AlertGroup(cfg, budget).rules|
    ensures CanFire(mrs, cfg, budget, j, pairing) <==>
      && pairing == IgnoringWindow
      && (Negative(cfg, j) || (Reachable(cfg, budget, j) && DistinctQueries(mrs)))
  {
    hide MonitoringRuleSet.AlertGroup, Rounded, Threshold, Stable, Fires, AlertAt, Wired, MonitoringRuleSet.Groups,
      Sampled, DistinctQueries, Negative, Reachable, BothExceed;
    AlertIsEmitted(mrs, cfg, budget, j);
    if CanFire(mrs, cfg, budget, j, pairing) {
      var queries, good, total, db :|
        && Sampled(mrs, queries, good, total) && Stable(mrs.Groups(cfg, budget), queries, db)
        && Fires(AlertAt(mrs, cfg, budget, j), db, queries, pairing);
      AlertFiresIff(mrs, cfg, budget, db, queries, good, total, j, pairing);
      if !Negative(cfg, j) {
        ExceedingNeeds(mrs, cfg, budget, j, queries, good, total);
      }
    }
    if Negative(cfg, j) || (Reachable(cfg, budget, j) && DistinctQueries(mrs)) {
      SomethingFires(mrs, cfg, budget, j);
    }
  }

  // ----- Whether an alert means what the SLO asks for -----

  /** For all samples the alert fires exactly when both of its windows exceed the threshold. */
  ghost predicate Faithful(mrs: MonitoringRuleSet, cfg: Config, budget: real, j: nat, pairing: Pairing)
    requires mrs.slo.spec.targets != [] && j < 4 && j < |mrs.AlertGroup(cfg, budget).rules|
  {
    forall queries, good, total, db |
      Sampled(mrs, queries, good, total) && Stable(mrs.Groups(cfg, budget), queries, db) ::
        Fires(AlertAt(mrs, cfg, budget, j), db, queries, pairing) <==> BothExceed(cfg, budget, good, total, j)
  }

  /**
   The input on which the emitted text fails: in a complete outage both windows exceed any attainable
   threshold, and the alert, its `and` paired on all labels, does not fire.
   */
  lemma OutageMissed(mrs: MonitoringRuleSet, cfg: Config, budget: real, j: nat)
    requires Wired(mrs) && j < 4 && DistinctQueries(mrs) && Rounded(budget, 10) > 0.0 && Reachable(cfg, budget, j)
    ensures j < |mrs.AlertGroup(cfg, budget).rules|
    ensures var queries := Flat(mrs.sli.spec.ratio.total.query, 0.0); var db := FlatDatabase(mrs, budget, 0.0);
      && Sampled(mrs, queries, Always(0.0), Always(1.0)) && Stable(mrs.Groups(cfg, budget), queries, db)
      && BothExceed(cfg, budget, Always(0.0), Always(1.0), j)
      && !Fires(AlertAt(mrs, cfg, budget, j), db, queries, OnAllLabels)
      && Fires(AlertAt(mrs, cfg, budget, j), db, queries, IgnoringWindow)
  {
    hide MonitoringRuleSet.AlertGroup, Rounded, Threshold, Stable, Fires, AlertAt, Wired, MonitoringRuleSet.Groups,
      FlatDatabase, Exceeds, Flat, Sampled, DistinctQueries, Attainable, Negative;
    FlatFires(mrs, cfg, budget, j, 0.0, IgnoringWindow);
    FlatFires(mrs, cfg, budget, j, 0.0, OnAllLabels);
    OutageExceeds(Rounded(Limit(cfg, j), 1), Rounded(budget, 10));
  }

  /** With a negative threshold undisturbed samples exceed it. */
  lemma CalmExceeds(cfg: Config, budget: real, j: nat)
    requires j < 4 && Negative(cfg, j) && Rounded(budget, 10) > 0.0
    ensures BothExceed(cfg, budget, Always(1.0), Always(1.0), j)
  {
    hide Rounded, Threshold;
    NegativeProduct(Rounded(Limit(cfg, j), 1), Rounded(budget, 10));
  }

  lemma NegativeProduct(t: real, e: real)
    requires t < 0.0 && e > 0.0
    ensures t * e < 0.0 && 2.0 - t * e > 0.0
  {
  }

  /** A good count so far above the total that a negative threshold is not exceeded, although the alert fires. */
  function Surplus(cfg: Config, budget: real, j: nat): real
    requires j < 4
  {
    2.0 - Rounded(Limit(cfg, j), 1) * Rounded(budget, 10)
  }

  lemma SurplusExceedsNothing(cfg: Config, budget: real, j: nat)
    requires j < 4 && Negative(cfg, j) && Rounded(budget, 10) > 0.0
    ensures Surplus(cfg, budget, j) > 0.0
    ensures !BothExceed(cfg, budget, Always(Surplus(cfg, budget, j)), Always(1.0), j)
  {
    hide Rounded, Threshold;
    NegativeProduct(Rounded(Limit(cfg, j), 1), Rounded(budget, 10));
  }

  /** One query for both good and total exceeds every negative threshold. */
  lemma SameQueriesExceed(
    mrs: MonitoringRuleSet, cfg: Config, budget: real, j: nat, queries: Queries, good: Counts, total: Counts)
    requires Wired(mrs) && j < 4 && Rounded(budget, 10) > 0.0 && Negative(cfg, j) && !DistinctQueries(mrs)
    requires Sampled(mrs, queries, good, total)
    ensures BothExceed(cfg, budget, good, total, j)
  {
    hide MonitoringRuleSet.AlertGroup, MonitoringRuleSet.Windows, Rounded, Threshold, AlertAt, Clean, UserLabels,
      MonitoringRuleSet.Groups, MonitoringRuleSet.HasGoodQuery, DistinctQueries, MonitoringRuleSet.BurnRateRule,
      MonitoringRuleSet.TwoWindowAlert, OneSample;
    var a := ALERTS[j];
    AlertTable(cfg, j);
    var t, e := Rounded(Threshold(cfg, a.severity), 1), Rounded(budget, 10);
    AlertIs(mrs, cfg, budget, j);
    SameQueriesSame(mrs, queries, good, total, a.short);
    SameQueriesSame(mrs, queries, good, total, a.long);
    NegativeExceeded(total(a.short), t, e);
    NegativeExceeded(total(a.long), t, e);
  }

  lemma NegativeExceeded(total: real, threshold: real, budget: real)
    requires total > 0.0 && threshold < 0.0 && budget > 0.0
    ensures Exceeds(total, total, threshold, budget)
  {
    NegativeProduct(threshold, budget);
    NegativeProduct(threshold * budget, total);
  }

  /** What a caller can check: the pairing, the printed threshold, and whether good and total are one query. */
  predicate MeansIt(mrs: MonitoringRuleSet, cfg: Config, budget: real, j: nat, pairing: Pairing)
    requires j < 4
  {
    if Negative(cfg, j) then pairing == IgnoringWindow && !DistinctQueries(mrs)
    else pairing == IgnoringWindow || !(Reachable(cfg, budget, j) && DistinctQueries(mrs))
  }

  /**
   Exactly when an alert means what the SLO asks for.  With a threshold that is not negative: always if `and`
   paired ignoring the window; as the text is read, with `and` paired on all labels, only if no samples should
   ever make it fire.  With a negative one: only if `and` ignored the window and good and total were one query.
   */
  lemma FaithfulIff(mrs: MonitoringRuleSet, cfg: Config, budget: real, j: nat, pairing: Pairing)
    requires Wired(mrs) && j < 4 && Rounded(budget, 10) > 0.0
    ensures mrs.slo.spec.targets != [] && j < |mrs.AlertGroup(cfg, budget).rules|
    ensures Faithful(mrs, cfg, budget, j, pairing) <==> MeansIt(mrs, cfg, budget, j, pairing)
  {
    hide MonitoringRuleSet.AlertGroup, Rounded, Threshold, Stable, Fires, AlertAt, Wired, MonitoringRuleSet.Groups,
      Sampled, DistinctQueries, BothExceed, Reachable, FlatDatabase, Flat, Negative, Surplus;
    AlertIsEmitted(mrs, cfg, budget, j);
    if MeansIt(mrs, cfg, budget, j, pairing) {
      forall queries, good, total, db |
        Sampled(mrs, queries, good, total) && Stable(mrs.Groups(cfg, budget), queries, db)
        ensures Fires(AlertAt(mrs, cfg, budget, j), db, queries, pairing) <==> BothExceed(cfg, budget, good, total, j)
      {
        AlertFiresIff(mrs, cfg, budget, db, queries, good, total, j, pairing);
        if Negative(cfg, j) {
          SameQueriesExceed(mrs, cfg, budget, j, queries, good, total);
        } else if BothExceed(cfg, budget, good, total, j) {
          ExceedingNeeds(mrs, cfg, budget, j, queries, good, total);
        }
      }
    } else if !Negative(cfg, j) {
      OutageMissed(mrs, cfg, budget, j);
    } else if pairing == OnAllLabels {
      CalmExceeds(cfg, budget, j);
      FlatFires(mrs, cfg, budget, j, 1.0, OnAllLabels);
    } else {
      SurplusExceedsNothing(cfg, budget, j);
      FlatFires(mrs, cfg, budget, j, Surplus(cfg, budget, j), IgnoringWindow);
    }
  }

  lemma AlertIsEmitted(mrs: MonitoringRuleSet, cfg: Config, budget: real, j: nat)
    requires Wired(mrs) && j < 4
    ensures j < |mrs.AlertGroup(cfg, budget).rules|
    ensures mrs.slo.spec.targets != []
  {
    hide MonitoringRuleSet.AlertGroup, UserLabels, Clean, MonitoringRuleSet.Windows, MonitoringRuleSet.BurnRateRule,
      MonitoringRuleSet.TwoWindowAlert;
    AlertIs(mrs, cfg, budget, j);
  }

  // ----- From the compiler's output -----

  /**
   A compilable SLO with magic alerting and usable labels, whose first objective stands for `t`, with a budget
   the printer can show.
   */
  ghost predicate Alerting(mrs: MonitoringRuleSet, cfg: Config, t: real)
  {
    && Magic(mrs.slo) && Clean(mrs) && mrs.sli.spec.ratio.good.query != ""
    && "label.osko.dev/window" !in mrs.slo.meta.labels
    && mrs.slo.spec.targets != [] && cfg.parseFloat(mrs.slo.spec.targets[0]) == Some(t)
    && t < 1.0 - 0.000_000_000_05
  }

  /**
   The whole path at once, for either pairing of `and`: the j-th compiled alert fires exactly when `and` pairs
   ignoring the window and both windows exceed the threshold or the threshold is negative.
   */
  lemma CompiledAlertFiresIff(
    mrs: MonitoringRuleSet, cfg: Config, groups: seq<RuleGroup>, t: real, db: Database, queries: Queries,
    good: Counts, total: Counts, j: nat, pairing: Pairing)
    requires mrs.Compile(cfg) == Success(groups) && Alerting(mrs, cfg, t)
    requires Sampled(mrs, queries, good, total) && Stable(groups, queries, db)
    requires j < 4
    ensures |groups| == 7 && |groups[6].rules| == 4
    ensures Rounded(1.0 - t, 10) > 0.0
    ensures Fires(groups[6].rules[j], db, queries, pairing)
      <==>
      && pairing == IgnoringWindow
      && (Negative(cfg, j) || BothExceed(cfg, 1.0 - t, good, total, j))
  {
    hide MonitoringRuleSet.AlertGroup, Rounded, Stable, Fires, AlertAt, Exceeds, MonitoringRuleSet.Groups,
      MonitoringRuleSet.Compile, Sampled, Alerting, Negative, BothExceed;
    CompiledAlerts(mrs, cfg, groups, t);
    AlertAtIs(mrs, cfg, 1.0 - t, j);
    AlertFiresIff(mrs, cfg, 1.0 - t, db, queries, good, total, j, pairing);
  }

  /** Where the compiler puts the alerts, and that the rest of this module applies to them. */
  lemma CompiledAlerts(mrs: MonitoringRuleSet, cfg: Config, groups: seq<RuleGroup>, t: real)
    requires mrs.Compile(cfg) == Success(groups) && Alerting(mrs, cfg, t)
    ensures Wired(mrs) && |groups| == 7 && |groups[6].rules| == 4 && mrs.slo.spec.targets != []
    ensures Rounded(1.0 - t, 10) > 0.0 && groups == mrs.Groups(cfg, 1.0 - t)
    ensures groups[6] == mrs.AlertGroup(cfg, 1.0 - t)
  {
    hide MonitoringRuleSet.AlertGroup, Rounded, AlertAt, Clean, UserLabels, MonitoringRuleSet.HasGoodQuery,
      MonitoringRuleSet.BurnRateRule, MonitoringRuleSet.Groups, MonitoringRuleSet.TwoWindowAlert,
      MonitoringRuleSet.Windows, MonitoringRuleSet.MagicAlerting, Magic, MonitoringRuleSet.TargetRule, ALERTS,
      IsPrometheusSource;
    assert groups == mrs.Groups(cfg, 1.0 - t);
    MagicIs(mrs);
    UserWindowIs(mrs.slo.meta.labels);
    RowsAt(mrs, cfg, 1.0 - t, 6);
    AlertsAllOrNothing(mrs, cfg, 1.0 - t);
    PrintedBudgetPositive(1.0 - t);
  }

  /** For all samples the j-th compiled alert fires exactly when both of its windows exceed the threshold. */
  ghost predicate FaithfullyCompiled(
    mrs: MonitoringRuleSet, cfg: Config, groups: seq<RuleGroup>, budget: real, j: nat, pairing: Pairing)
    requires j < 4 && |groups| == 7 && |groups[6].rules| == 4
  {
    forall queries, good, total, db | Sampled(mrs, queries, good, total) && Stable(groups, queries, db) ::
      Fires(groups[6].rules[j], db, queries, pairing) <==> BothExceed(cfg, budget, good, total, j)
  }

  /**
   When compilation preserves meaning, exactly.  With a threshold that is not negative: if `and` pairs ignoring
   the window, or if the alert is one no samples should make fire.  PromQL pairs on all labels, so for every
   other alert the emitted text does not mean what the SLO asks for.
   */
  lemma CompilationPreservesMeaningIff(
    mrs: MonitoringRuleSet, cfg: Config, groups: seq<RuleGroup>, t: real, j: nat, pairing: Pairing)
    requires mrs.Compile(cfg) == Success(groups) && Alerting(mrs, cfg, t)
    requires j < 4
    ensures |groups| == 7 && |groups[6].rules| == 4
    ensures FaithfullyCompiled(mrs, cfg, groups, 1.0 - t, j, pairing) <==> MeansIt(mrs, cfg, 1.0 - t, j, pairing)
  {
    hide MonitoringRuleSet.AlertGroup, Rounded, Stable, Fires, AlertAt, Exceeds, MonitoringRuleSet.Groups,
      MonitoringRuleSet.Compile, Sampled, Alerting, MeansIt, BothExceed, Wired;
    CompiledAlerts(mrs, cfg, groups, t);
    AlertAtIs(mrs, cfg, 1.0 - t, j);
    FaithfulIff(mrs, cfg, 1.0 - t, j, pairing);
  }

  lemma AlertAtIs(mrs: MonitoringRuleSet, cfg: Config, budget: real, j: nat)
    requires j < |mrs.AlertGroup(cfg, budget).rules|
    ensures AlertAt(mrs, cfg, budget, j) == mrs.AlertGroup(cfg, budget).rules[j]
  {
    hide MonitoringRuleSet.AlertGroup;
  }
}
