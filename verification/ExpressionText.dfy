/**
 The expressions as text: a reader for the emitted PromQL fragment, and the proof that every compiled
 expression reads back as itself, so nothing is lost or swapped in printing.
 */
module ExpressionText {
  import opened Text
  import opened Selectors
  import opened FixedPoint
  import opened Api
  import opened RuleCompiler
  import opened RuleTable
  import opened RuleReferences

  // ----- Scanning -----

  function Skip(s: string, prefix: string): Option<string>
  {
    if HasPrefix(s, prefix) then Some(s[|prefix|..]) else None
  }

  lemma SkipRead(prefix: string, tail: string)
    ensures Skip(prefix + tail, prefix) == Some(tail)
  {
  }

  /** The text before the first `c`, and the text from it on. */
  function Until(s: string, c: char): Option<(string, string)>
  {
    match IndexOf(s, c)
    case None => None
    case Some(i) => Some((s[..i], s[i..]))
  }

  lemma UntilRead(a: string, c: char, tail: string)
    requires c !in a
    ensures Until(a + [c] + tail, c) == Some((a, [c] + tail))
  {
    IndexOfFirst(a, c, tail);
    var s := a + [c] + tail;
    assert s[..|a|] == a && s[|a|..] == [c] + tail;
  }

  function LastIndexOf(s: string, c: char): (r: Option<nat>)
    ensures r.Some? ==> r.value < |s|
  {
    if s == "" then None
    else if s[|s| - 1] == c then Some(|s| - 1)
    else LastIndexOf(s[..|s| - 1], c)
  }

  lemma {:induction false} LastIndexRead(a: string, c: char, b: string)
    requires c !in b
    ensures LastIndexOf(a + [c] + b, c) == Some(|a|)
  {
    var s := a + [c] + b;
    if b == "" {
      assert s[|s| - 1] == c;
    } else {
      assert s[..|s| - 1] == a + [c] + b[..|b| - 1] && s[|s| - 1] == b[|b| - 1];
      LastIndexRead(a, c, b[..|b| - 1]);
    }
  }

  // ----- Matchers -----

  /** Where the matchers end: the first closing brace outside quotes. */
  function MatchersLength(s: string, quoted: bool): nat
  {
    if s == "" || (s[0] == '}' && !quoted) then 0
    else 1 + MatchersLength(s[1..], if s[0] == '"' then !quoted else quoted)
  }

  /** Whether we are inside quotes after `s`; nothing if a brace outside quotes comes first. */
  function Scan(s: string, quoted: bool): Option<bool>
  {
    if s == "" then Some(quoted)
    else if s[0] == '}' && !quoted then None
    else Scan(s[1..], if s[0] == '"' then !quoted else quoted)
  }

  lemma {:induction false} ScanConcat(a: string, b: string, quoted: bool)
    requires Scan(a, quoted).Some?
    ensures Scan(a + b, quoted) == Scan(b, Scan(a, quoted).value)
  {
    if a == "" {
      assert a + b == b;
    } else {
      assert (a + b)[1..] == a[1..] + b && (a + b)[0] == a[0];
      ScanConcat(a[1..], b, if a[0] == '"' then !quoted else quoted);
    }
  }

  lemma {:induction false} ScanPlain(s: string, quoted: bool)
    requires '"' !in s && (!quoted ==> '}' !in s)
    ensures Scan(s, quoted) == Some(quoted)
  {
    if s != "" {
      assert s[0] in s;
      ScanPlain(s[1..], quoted);
    }
  }

  lemma {:induction false} MatchersEnd(m: string, tail: string, quoted: bool)
    requires Scan(m, quoted) == Some(false)
    ensures MatchersLength(m + "}" + tail, quoted) == |m|
  {
    var s := m + "}" + tail;
    if m == "" {
      assert s[0] == '}';
    } else {
      assert s[0] == m[0] && s[1..] == m[1..] + "}" + tail;
      MatchersEnd(m[1..], tail, if m[0] == '"' then !quoted else quoted);
    }
  }

  /** Labels whose printed selector ends at its closing brace. */
  predicate Enclosed(labels: Labels)
  {
    Printable(labels) && forall k | k in labels :: '}' !in k
  }

  lemma PairScans(key: string, value: string)
    requires '"' !in key && '}' !in key && '"' !in value
    ensures Scan(Pair(key, value), false) == Some(false)
  {
    ScanPlain(key, false);
    ScanPlain(value, true);
    var open, close := "=\"", "\"";
    assert Scan(close, true) == Some(false);
    assert Scan(open, false) == Some(true) by {
      assert open[1..] == "\"" && open[1..][1..] == "";
    }
    ScanConcat(value, close, true);
    ScanConcat(open, value + close, false);
    ScanConcat(key, open + (value + close), false);
    assert Pair(key, value) == key + (open + (value + close));
  }

  lemma {:induction false} JoinScans(parts: seq<string>)
    requires forall p | p in parts :: Scan(p, false) == Some(false)
    ensures Scan(Join(parts, ", "), false) == Some(false)
  {
    if |parts| == 1 {
      assert parts[0] in parts;
    } else if parts != [] {
      assert parts[0] in parts;
      JoinScans(parts[1..]);
      var separator := ", ";
      ScanPlain(separator, false);
      ScanConcat(separator, Join(parts[1..], ", "), false);
      ScanConcat(parts[0], separator + Join(parts[1..], ", "), false);
      assert Join(parts, ", ") == parts[0] + (separator + Join(parts[1..], ", "));
    }
  }

  lemma {:induction false} PairsScan(labels: Labels, keys: seq<string>)
    requires Enclosed(labels) && forall k | k in keys :: k in labels
    ensures forall p | p in Pairs(labels, keys) :: Scan(p, false) == Some(false)
  {
    hide Scan, Pair, Reserved;
    if keys != [] {
      PairsScan(labels, keys[1..]);
      PairScans(keys[0], labels[keys[0]]);
    }
  }

  lemma SelectorScans(labels: Labels)
    requires Enclosed(labels)
    ensures Scan(PrintSelector(labels), false) == Some(false)
  {
    hide Scan;
    PairsScan(labels, Sorted(labels.Keys));
    JoinScans(Pairs(labels, Sorted(labels.Keys)));
  }

  // ----- Reading -----

  function ReadRef(s: string): Option<(Ref, string)>
  {
    match Until(s, '{')
    case None => None
    case Some((record, rest)) =>
      if rest == "" then None
      else
        var inner := rest[1..];
        var n := MatchersLength(inner, false);
        if n < |inner| then Some((Ref(record, inner[..n]), inner[n + 1..])) else None
  }

  function ReadCapped(s: string): Option<Expr>
  {
    match Skip(s, "clamp_max(")
    case None => None
    case Some(t) =>
      match ReadRef(t)
      case None => None
      case Some((numerator, u)) =>
        match Skip(u, " / ")
        case None => None
        case Some(v) =>
          match ReadRef(v)
          case None => None
          case Some((denominator, end)) => if end == ", 1)" then Some(CappedRatio(numerator, denominator)) else None
  }

  /** `reference > limit`, the limit running up to the next space, or to the closing parenthesis. */
  function ReadAbove(s: string, last: bool): Option<(Ref, string, string)>
  {
    match ReadRef(s)
    case None => None
    case Some((r, t)) =>
      match Skip(t, " > ")
      case None => None
      case Some(u) =>
        if last then
          if u != "" && u[|u| - 1] == ')' then Some((r, u[..|u| - 1], "")) else None
        else
          match Until(u, ' ')
          case None => None
          case Some((limit, rest)) => Some((r, limit, rest))
  }

  function ReadBoth(s: string): Option<Expr>
  {
    match Skip(s, "(")
    case None => None
    case Some(t) =>
      match ReadAbove(t, false)
      case None => None
      case Some((short, shortLimit, u)) =>
        match Skip(u, " and ")
        case None => None
        case Some(v) =>
          match ReadAbove(v, true)
          case None => None
          case Some((long, longLimit, _)) => Some(BothAbove(short, shortLimit, long, longLimit))
  }

  function ReadComplement(s: string): Option<Expr>
  {
    match Skip(s, "1 - ")
    case None => None
    case Some(t) =>
      match ReadRef(t)
      case None => None
      case Some((r, end)) => if end == "" then Some(Complement(r)) else None
  }

  function ReadConstant(s: string): Option<Expr>
  {
    match Skip(s, "vector(")
    case None => None
    case Some(t) => if t != "" && t[|t| - 1] == ')' then Some(Constant(t[..|t| - 1])) else None
  }

  const BY := "])) by "

  /** `(query[window])) by (grouping)`: the query may be any text, so window and grouping are read from the end. */
  function ReadWindowed(aggregation: string, u: string): Option<Expr>
  {
    match LastIndexOf(u, '(')
    case None => None
    case Some(g) =>
      match LastIndexOf(u[..g], '[')
      case None => None
      case Some(w) =>
        if 1 <= w && w + 1 + |BY| <= g && g + 2 <= |u| && u[g - |BY|..g] == BY && u[|u| - 1] == ')'
        then Some(Aggregate(aggregation, u[1..w], u[w + 1..g - |BY|], u[g + 1..|u| - 1]))
        else None
  }

  function ReadAggregate(s: string): Option<Expr>
  {
    match Skip(s, "sum(")
    case None => None
    case Some(t) =>
      match Until(t, '(')
      case None => None
      case Some((aggregation, u)) => ReadWindowed(aggregation, u)
  }

  /** A difference of records, or a reference over a number. */
  function ReadPlain(s: string): Option<Expr>
  {
    if '{' in s then
      match ReadRef(s)
      case None => None
      case Some((r, t)) =>
        match Skip(t, " / ")
        case None => None
        case Some(divisor) => Some(Quotient(r, divisor))
    else
      match Until(s, ' ')
      case None => None
      case Some((a, t)) =>
        match Skip(t, " - ")
        case None => None
        case Some(b) => Some(Difference(a, b))
  }

  function ReadExpr(s: string): Option<Expr>
  {
    if s == "" then None
    else if s[0] == 'c' then ReadCapped(s)
    else if s[0] == '(' then ReadBoth(s)
    else if s[0] == '1' then ReadComplement(s)
    else if s[0] == 'v' then ReadConstant(s)
    else if s[0] == 's' then ReadAggregate(s)
    else ReadPlain(s)
  }

  // ----- Reading what was printed -----

  /** A record name of the operator. */
  predicate RecordName(s: string)
  {
    HasPrefix(s, "osko_") && ' ' !in s && '{' !in s
  }

  predicate Legible(r: Ref)
  {
    RecordName(r.record) && Scan(r.matchers, false) == Some(false)
  }

  predicate Readable(e: Expr)
  {
    match e
    case Zero => false
    case Constant(_) => true
    case Aggregate(aggregation, _, window, grouping) => '(' !in aggregation && '[' !in window && '(' !in grouping
    case Difference(a, b) => RecordName(a) && RecordName(b)
    case CappedRatio(n, d) => Legible(n) && Legible(d)
    case Complement(r) => Legible(r)
    case Quotient(r, _) => Legible(r)
    case BothAbove(s, limit, l, _) => Legible(s) && Legible(l) && ' ' !in limit
  }

  lemma RefRead(r: Ref, tail: string)
    requires Legible(r)
    ensures ReadRef(RenderRef(r) + tail) == Some((r, tail))
  {
    hide Scan, HasPrefix;
    var after := r.matchers + "}" + tail;
    assert RenderRef(r) + tail == r.record + ['{'] + after;
    UntilRead(r.record, '{', after);
    MatchersEnd(r.matchers, tail, false);
    assert (['{'] + after)[1..] == after;
    assert after[..|r.matchers|] == r.matchers && after[|r.matchers| + 1..] == tail;
  }

  lemma CappedRead(n: Ref, d: Ref)
    requires Legible(n) && Legible(d)
    ensures ReadCapped(Render(CappedRatio(n, d))) == Some(CappedRatio(n, d))
  {
    hide Legible, ReadRef, RenderRef, Skip;
    var v := RenderRef(d) + ", 1)";
    var t := RenderRef(n) + (" / " + v);
    assert Render(CappedRatio(n, d)) == "clamp_max(" + t;
    SkipRead("clamp_max(", t);
    RefRead(n, " / " + v);
    SkipRead(" / ", v);
    RefRead(d, ", 1)");
  }

  lemma AboveRead(r: Ref, limit: string, tail: string)
    requires Legible(r)
    ensures ' ' !in limit ==>
      ReadAbove(RenderRef(r) + (" > " + (limit + (" " + tail))), false) == Some((r, limit, " " + tail))
    ensures ReadAbove(RenderRef(r) + (" > " + (limit + ")")), true) == Some((r, limit, ""))
  {
    hide Legible, ReadRef, RenderRef, Skip;
    RefRead(r, " > " + (limit + (" " + tail)));
    RefRead(r, " > " + (limit + ")"));
    SkipRead(" > ", limit + (" " + tail));
    SkipRead(" > ", limit + ")");
    if ' ' !in limit {
      UntilRead(limit, ' ', tail);
      assert limit + [' '] + tail == limit + (" " + tail);
    }
    assert (limit + ")")[..|limit|] == limit;
  }

  lemma BothRead(s: Ref, sl: string, l: Ref, ll: string)
    requires Legible(s) && Legible(l) && ' ' !in sl
    ensures ReadBoth(Render(BothAbove(s, sl, l, ll))) == Some(BothAbove(s, sl, l, ll))
  {
    hide Legible, ReadAbove, RenderRef, Skip;
    var v := RenderRef(l) + (" > " + (ll + ")"));
    var u := "and " + v;
    var t := RenderRef(s) + (" > " + (sl + (" " + u)));
    assert Render(BothAbove(s, sl, l, ll)) == "(" + t;
    SkipRead("(", t);
    AboveRead(s, sl, u);
    assert " " + u == " and " + v;
    SkipRead(" and ", v);
    AboveRead(l, ll, "");
  }

  lemma ComplementRead(r: Ref)
    requires Legible(r)
    ensures ReadComplement(Render(Complement(r))) == Some(Complement(r))
  {
    hide Legible, ReadRef, RenderRef, Skip;
    SkipRead("1 - ", RenderRef(r));
    RefRead(r, "");
    assert RenderRef(r) + "" == RenderRef(r);
  }

  lemma QuotientRead(r: Ref, divisor: string)
    requires Legible(r)
    ensures ReadPlain(Render(Quotient(r, divisor))) == Some(Quotient(r, divisor))
  {
    hide Legible, ReadRef, Skip;
    RefRead(r, " / " + divisor);
    assert Render(Quotient(r, divisor)) == RenderRef(r) + (" / " + divisor);
    assert '{' in RenderRef(r) by {
      assert RenderRef(r)[|r.record|] == '{';
    }
    SkipRead(" / ", divisor);
  }

  lemma DifferenceRead(a: string, b: string)
    requires RecordName(a) && RecordName(b)
    ensures ReadPlain(Render(Difference(a, b))) == Some(Difference(a, b))
  {
    hide Skip, HasPrefix;
    var text := Render(Difference(a, b));
    assert text == a + [' '] + ("- " + b);
    assert '{' !in text;
    UntilRead(a, ' ', "- " + b);
    assert [' '] + ("- " + b) == " - " + b;
    SkipRead(" - ", b);
  }

  lemma ConstantRead(text: string)
    ensures ReadConstant(Render(Constant(text))) == Some(Constant(text))
  {
    assert Render(Constant(text)) == "vector(" + (text + ")");
    SkipRead("vector(", text + ")");
    assert (text + ")")[..|text|] == text;
  }

  lemma WindowedRead(aggregation: string, metric: string, window: string, grouping: string)
    requires '[' !in window && '(' !in grouping
    ensures var u := ("(" + metric) + ['['] + (window + BY) + ['('] + (grouping + ")");
      ReadWindowed(aggregation, u) == Some(Aggregate(aggregation, metric, window, grouping))
  {
    hide LastIndexOf;
    var head := "(" + metric;
    var body := head + ['['] + (window + BY);
    var u := body + ['('] + (grouping + ")");
    LastIndexRead(body, '(', grouping + ")");
    assert u[..|body|] == body;
    LastIndexRead(head, '[', window + BY);
    var g, w := |body|, |head|;
    assert w + 1 + |window| + |BY| == g && u[|u| - 1] == ')';
    assert body[g - |BY|..] == BY && u[g - |BY|..g] == body[g - |BY|..];
    assert u[1..w] == head[1..] == metric;
    assert u[w + 1..g - |BY|] == window;
    assert u[g + 1..|u| - 1] == grouping;
  }

  /** The text after the aggregation's name, split where the reader splits it. */
  function Windowed(metric: string, window: string, grouping: string): string
  {
    ("(" + metric) + ['['] + (window + BY) + ['('] + (grouping + ")")
  }

  lemma AggregateText(aggregation: string, metric: string, window: string, grouping: string)
    ensures Render(Aggregate(aggregation, metric, window, grouping))
         == "sum(" + (aggregation + Windowed(metric, window, grouping))
    ensures Windowed(metric, window, grouping) == ['('] + Windowed(metric, window, grouping)[1..]
  {
    var tail := "(" + metric + "[" + window + BY + "(" + grouping + ")";
    WindowedTail(metric, window, grouping);
    assert Windowed(metric, window, grouping)[0] == '(';
    hide Windowed;
    assert BY + "(" == "])) by (";
    assert Render(Aggregate(aggregation, metric, window, grouping)) == "sum(" + (aggregation + tail);
  }

  lemma WindowedTail(metric: string, window: string, grouping: string)
    ensures Windowed(metric, window, grouping) == "(" + metric + "[" + window + BY + "(" + grouping + ")"
  {
  }

  lemma AggregateRead(aggregation: string, metric: string, window: string, grouping: string)
    requires '(' !in aggregation && '[' !in window && '(' !in grouping
    ensures var e := Aggregate(aggregation, metric, window, grouping); ReadAggregate(Render(e)) == Some(e)
  {
    AggregateText(aggregation, metric, window, grouping);
    WindowedRead(aggregation, metric, window, grouping);
    var u := Windowed(metric, window, grouping);
    assert ReadWindowed(aggregation, u) == Some(Aggregate(aggregation, metric, window, grouping));
    hide Skip, ReadWindowed, Until, Windowed, Render;
    var rest := u[1..];
    assert aggregation + u == aggregation + ['('] + rest;
    SkipRead("sum(", aggregation + u);
    UntilRead(aggregation, '(', rest);
  }

  /** The first character tells the forms apart. */
  lemma FirstChars(e: Expr)
    requires Readable(e)
    ensures Render(e) != ""
    ensures Render(e)[0] == match e
      case Constant(_) => 'v' case Aggregate(_, _, _, _) => 's' case CappedRatio(_, _) => 'c' case Complement(_) => '1'
      case BothAbove(_, _, _, _) => '(' case _ => 'o'
  {
    hide Scan;
  }

  /** Every legible expression reads back from its text as itself. */
  lemma ReadRendered(e: Expr)
    requires Readable(e)
    ensures ReadExpr(Render(e)) == Some(e)
  {
    hide Render, ReadCapped, ReadBoth, ReadComplement, ReadConstant, ReadAggregate, ReadPlain, Legible, RecordName;
    FirstChars(e);
    match e
    case Constant(text) => ConstantRead(text);
    case Aggregate(a, m, w, g) => AggregateRead(a, m, w, g);
    case Difference(a, b) => DifferenceRead(a, b);
    case CappedRatio(n, d) => CappedRead(n, d);
    case Complement(r) => ComplementRead(r);
    case Quotient(r, divisor) => QuotientRead(r, divisor);
    case BothAbove(s, sl, l, ll) => BothRead(s, sl, l, ll);
  }

  // ----- Compiled rules -----

  /** No quotes in names and windows, no `=` or `}` in user label keys, no `[` in windows. */
  predicate Quotable(mrs: MonitoringRuleSet)
  {
    forall w | w in mrs.Windows() :: Enclosed(mrs.RuleLabels(w)) && '[' !in w
  }

  lemma PrefixedIsRecord(x: string, y: string)
    requires ' ' !in x && '{' !in x && ' ' !in y && '{' !in y
    ensures RecordName("osko_" + x + y)
  {
    assert "osko_" <= "osko_" + x + y;
  }

  lemma TotalRecordLegible()
    ensures RecordName(TOTAL_RECORD)
  {
    hide RecordName;
    assert TOTAL_RECORD == "osko_" + "sli" + "_total";
    PrefixedIsRecord("sli", "_total");
  }

  lemma GoodRecordLegible()
    ensures RecordName(GOOD_RECORD)
  {
    hide RecordName;
    assert GOOD_RECORD == "osko_" + "sli" + "_good";
    PrefixedIsRecord("sli", "_good");
  }

  lemma BadRecordLegible()
    ensures RecordName(BAD_RECORD)
  {
    hide RecordName;
    assert BAD_RECORD == "osko_" + "sli" + "_bad";
    PrefixedIsRecord("sli", "_bad");
  }

  lemma MeasurementRecordLegible()
    ensures RecordName(MEASUREMENT_RECORD)
  {
    hide RecordName;
    assert MEASUREMENT_RECORD == "osko_" + "sli" + "_measurement";
    PrefixedIsRecord("sli", "_measurement");
  }

  lemma RatioRecordLegible()
    ensures RecordName(RATIO_RECORD)
  {
    hide RecordName;
    assert RATIO_RECORD == "osko_" + "error_budget" + "_ratio";
    PrefixedIsRecord("error_budget", "_ratio");
  }

  lemma BurnRateRecordLegible()
    ensures RecordName(BURN_RATE_RECORD)
  {
    hide RecordName;
    assert BURN_RATE_RECORD == "osko_" + "error_budget" + "_burn_rate";
    PrefixedIsRecord("error_budget", "_burn_rate");
  }

  lemma RecordNamesLegible(kind: Kind)
    ensures RecordName(RecordOf(kind))
  {
    hide RecordName;
    match kind
    case Total => TotalRecordLegible();
    case Good => GoodRecordLegible();
    case Bad => BadRecordLegible();
    case Measurement => MeasurementRecordLegible();
    case Ratio => RatioRecordLegible();
    case BurnRate => BurnRateRecordLegible();
  }

  lemma LimitHasNoSpace(x: real)
    ensures ' ' !in PrintFixed(x, 1)
  {
    hide Scaled, Whole, PrintNat, PrintPadded;
    var n := Scaled(x, 1);
    forall c | c in PrintDigits(n, 1)
      ensures c != ' '
    {
      DigitsOnly(PrintNat(Whole(n, 1)));
      DigitsOnly(PrintPadded(n, 1));
    }
  }

  lemma DigitsOnly(s: string)
    requires IsDigits(s)
    ensures forall c | c in s :: IsDigit(c)
  {
  }

  lemma ReferenceLegible(mrs: MonitoringRuleSet, kind: Kind, w: string, budget: real)
    requires Enclosed(mrs.RuleLabels(w))
    ensures Legible(Reference(mrs.RuleOf(kind, w, budget)))
  {
    hide MonitoringRuleSet.RuleOf, RecordOf, PrintSelector, Scan, RecordName, MonitoringRuleSet.RuleLabels,
      Enclosed;
    RuleOfKind(mrs, kind, w, budget);
    RecordNamesLegible(kind);
    SelectorScans(mrs.RuleLabels(w));
  }

  lemma RecordingReadable(mrs: MonitoringRuleSet, kind: Kind, w: string, budget: real)
    requires Enclosed(mrs.RuleLabels(w)) && '[' !in w
    ensures Readable(mrs.RuleOf(kind, w, budget).expr)
  {
    hide Legible, RecordName, PrintSelector, PrintFixed, Enclosed, MonitoringRuleSet.RuleLabels;
    assert '(' !in GROUPING && '(' !in "rate" && '(' !in "avg_over_time";
    ReferenceLegible(mrs, Total, w, budget);
    ReferenceLegible(mrs, Good, w, budget);
    ReferenceLegible(mrs, Measurement, w, budget);
    ReferenceLegible(mrs, Ratio, w, budget);
    RecordNames();
    RecordNamesLegible(Total);
    RecordNamesLegible(Bad);
  }

  lemma AlertReadable(mrs: MonitoringRuleSet, cfg: Config, budget: real, a: AlertSpec)
    requires Enclosed(mrs.RuleLabels(a.short)) && Enclosed(mrs.RuleLabels(a.long))
    ensures Readable(mrs.TwoWindowAlert(cfg, mrs.BurnRateRule(a.short, budget), mrs.BurnRateRule(a.long, budget),
        a.severity).expr)
  {
    hide Legible, PrintSelector, PrintFixed, Enclosed, MonitoringRuleSet.RuleLabels, MonitoringRuleSet.BurnRateRule;
    ReferenceLegible(mrs, BurnRate, a.short, budget);
    ReferenceLegible(mrs, BurnRate, a.long, budget);
    assert mrs.RuleOf(BurnRate, a.short, budget) == mrs.BurnRateRule(a.short, budget);
    assert mrs.RuleOf(BurnRate, a.long, budget) == mrs.BurnRateRule(a.long, budget);
    LimitHasNoSpace(Threshold(cfg, a.severity));
  }

  /** The text of every compiled rule reads back as the expression that the meaning is given to. */
  lemma CompiledTextReads(mrs: MonitoringRuleSet, cfg: Config, budget: real, g: int, i: int)
    requires mrs.slo.spec.targets != [] && Quotable(mrs) && At(mrs.Groups(cfg, budget), g, i)
    ensures var rule := mrs.Groups(cfg, budget)[g].rules[i]; ReadExpr(Render(rule.expr)) == Some(rule.expr)
  {
    hide MonitoringRuleSet.Groups, MonitoringRuleSet.Windows, MonitoringRuleSet.RuleOf,
      MonitoringRuleSet.AlertGroup, MonitoringRuleSet.RuleLabels, MonitoringRuleSet.BurnRateRule, Render, ReadExpr,
      MonitoringRuleSet.TwoWindowAlert, Enclosed, RecordOf, Legible, RecordName;
    RowsAt(mrs, cfg, budget, g);
    RecordAt(mrs, cfg, budget, g, i);
    var rule := mrs.Groups(cfg, budget)[g].rules[i];
    if 1 <= g <= 5 {
      RecordingReadable(mrs, KindAt(g), mrs.Windows()[i], budget);
    } else if g == 6 {
      AlertsAllOrNothing(mrs, cfg, budget);
      AlertPairs(ALERTS[i]);
      AlertWindowsPresent(mrs, ALERTS[i].short);
      AlertWindowsPresent(mrs, ALERTS[i].long);
      AlertReadable(mrs, cfg, budget, ALERTS[i]);
    }
    assert Readable(rule.expr);
    ReadRendered(rule.expr);
  }
}
