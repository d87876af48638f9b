/**
 An evaluator for the emitted PromQL fragment.  Vectors map label sets to samples; a database holds
 the recorded series.  A database is stable for a rule set when it holds exactly what the recording
 rules compute from it and from the raw queries.
 */
module PromQL {
  import opened Text
  import opened Selectors
  import opened FixedPoint
  import opened Api
  import opened RuleCompiler

  type Vector = map<Labels, real>

  const EMPTY: Vector := map[]

  datatype Series = Series(record: string, labels: Labels)

  type Database = map<Series, real>

  /** What the raw queries (aggregations and constants) currently give. */
  type Queries = Expr -> Vector

  /**
   How the two sides of `and` are paired: PromQL compares all labels, and an alert over two windows
   would need a pairing that ignores the window label.
   */
  datatype Pairing = OnAllLabels | IgnoringWindow

  function PairingKey(pairing: Pairing, labels: Labels): Labels
  {
    match pairing
    case OnAllLabels => labels
    case IgnoringWindow => labels - {"window"}
  }

  /** Equality matchers; a missing label counts as empty. */
  predicate Matches(labels: Labels, matchers: Labels)
  {
    forall k | k in matchers :: Get(labels, k) == matchers[k]
  }

  function Select(db: Database, r: Ref): Vector
  {
    match ParseSelector(r.matchers)
    case None => EMPTY
    case Some(m) => Selected(db, r.record, m)
  }

  function Selected(db: Database, record: string, matchers: Labels): Vector
  {
    var labels := set s | s in db && s.record == record && Matches(s.labels, matchers) :: s.labels;
    assert forall l | l in labels :: Series(record, l) in db;
    map l | l in labels :: db[Series(record, l)]
  }

  function Min(a: real, b: real): real
  {
    if a <= b then a else b
  }

  /** A division by zero gives no sample here; the reals have no infinities. */
  function CappedQuotients(x: Vector, y: Vector): Vector
  {
    map l | l in x && l in y && y[l] != 0.0 :: Min(x[l] / y[l], 1.0)
  }

  function Differences(x: Vector, y: Vector): Vector
  {
    map l | l in x && l in y :: x[l] - y[l]
  }

  function Complements(x: Vector): Vector
  {
    map l | l in x :: 1.0 - x[l]
  }

  function Divided(x: Vector, divisor: Option<real>): Vector
  {
    if divisor.None? || divisor.value == 0.0 then EMPTY else map l | l in x :: x[l] / divisor.value
  }

  function Above(x: Vector, limit: Option<real>): Vector
  {
    if limit.None? then EMPTY else map l | l in x && x[l] > limit.value :: x[l]
  }

  function And(x: Vector, y: Vector, pairing: Pairing): Vector
  {
    map l | l in x && exists k | k in y :: PairingKey(pairing, k) == PairingKey(pairing, l) :: x[l]
  }

  function Value(e: Expr, db: Database, queries: Queries, pairing: Pairing): Vector
  {
    match e
    case Zero => map[map[] := 0.0]
    case Constant(_) => queries(e)
    case Aggregate(_, _, _, _) => queries(e)
    case Difference(a, b) => Differences(Select(db, Ref(a, "")), Select(db, Ref(b, "")))
    case CappedRatio(n, d) => CappedQuotients(Select(db, n), Select(db, d))
    case Complement(r) => Complements(Select(db, r))
    case Quotient(r, divisor) => Divided(Select(db, r), ParseFixed(divisor))
    case BothAbove(s, sl, l, ll) =>
      And(Above(Select(db, s), ParseFixed(sl)), Above(Select(db, l), ParseFixed(ll)), pairing)
  }

  /** Rule labels overwrite sample labels; samples that would collide make the whole rule fail. */
  predicate Collides(v: Vector, labels: Labels)
  {
    exists a, b | a in v && b in v :: a != b && a + labels == b + labels
  }

  function Relabelled(v: Vector, labels: Labels): Vector
  {
    if Collides(v, labels) then EMPTY
    else
      assert forall a, b | a in v && b in v && a + labels == b + labels :: a == b;
      map l | l in v :: l + labels := v[l]
  }

  /** The samples a recording rule writes. */
  function Output(rule: Rule, db: Database, queries: Queries): Vector
  {
    Relabelled(Value(rule.expr, db, queries, OnAllLabels), rule.labels)
  }

  ghost predicate Emitted(groups: seq<RuleGroup>, rule: Rule)
  {
    exists g, r | 0 <= g < |groups| && 0 <= r < |groups[g].rules| :: groups[g].rules[r] == rule
  }

  ghost predicate Stable(groups: seq<RuleGroup>, queries: Queries, db: Database)
  {
    && (forall rule, l | Emitted(groups, rule) && rule.record != "" && l in Output(rule, db, queries) ::
          Series(rule.record, l) in db && db[Series(rule.record, l)] == Output(rule, db, queries)[l])
    && (forall s | s in db :: Explained(groups, queries, db, s))
  }

  /** Some recording rule writes this series. */
  ghost predicate Explained(groups: seq<RuleGroup>, queries: Queries, db: Database, s: Series)
  {
    exists rule :: Emitted(groups, rule) && Writes(rule, db, queries, s)
  }

  ghost predicate Writes(rule: Rule, db: Database, queries: Queries, s: Series)
  {
    rule.record != "" && rule.record == s.record && s.labels in Output(rule, db, queries)
  }

  ghost predicate Fires(alert: Rule, db: Database, queries: Queries, pairing: Pairing)
  {
    Value(alert.expr, db, queries, pairing) != EMPTY
  }

  // ----- One-sample vectors -----

  lemma RelabelledOne(l: Labels, labels: Labels, x: real)
    requires l.Keys <= labels.Keys
    ensures Relabelled(map[l := x], labels) == map[labels := x]
  {
    assert l + labels == labels;
    var v := map[l := x];
    assert !Collides(v, labels);
  }

  lemma RelabelledNone(labels: Labels)
    ensures Relabelled(EMPTY, labels) == EMPTY
  {
    assert !Collides(EMPTY, labels);
  }
}
