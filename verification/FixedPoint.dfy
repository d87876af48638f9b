/**
 The `%.Nf` number format over the reals, and the reader that inverts it.  Burn-rate divisors are
 printed with ten decimals and alert thresholds with one, so what a rule computes with is the
 rounded value, not the configured one.
 */
module FixedPoint {
  import opened Text

  /** `x` with the decimal point moved `n` places to the right, and to the left. */
  function Up(x: real, n: nat): real
    decreases n
  {
    if n == 0 then x else Up(10.0 * x, n - 1)
  }

  function Down(x: real, n: nat): real
    decreases n
  {
    if n == 0 then x else Down(x / 10.0, n - 1)
  }

  lemma {:induction false} DownAdds(x: real, y: real, n: nat)
    ensures Down(x + y, n) == Down(x, n) + Down(y, n)
    decreases n
  {
    if n > 0 {
      assert (x + y) / 10.0 == x / 10.0 + y / 10.0;
      DownAdds(x / 10.0, y / 10.0, n - 1);
    }
  }

  lemma {:induction false} DownNegates(x: real, n: nat)
    ensures Down(-x, n) == -Down(x, n)
    decreases n
  {
    if n > 0 {
      DownNegates(x / 10.0, n - 1);
    }
  }

  lemma {:induction false} DownMonotone(x: real, y: real, n: nat)
    ensures x <= y <==> Down(x, n) <= Down(y, n)
    decreases n
  {
    if n > 0 {
      DownMonotone(x / 10.0, y / 10.0, n - 1);
    }
  }

  lemma {:induction false} DownZero(n: nat)
    ensures Down(0.0, n) == 0.0
  {
    if n > 0 {
      DownZero(n - 1);
    }
  }

  lemma {:induction false} UpScales(x: real, n: nat)
    ensures Up(10.0 * x, n) == 10.0 * Up(x, n)
    decreases n
  {
    if n > 0 {
      UpScales(10.0 * x, n - 1);
    }
  }

  lemma {:induction false} DownUp(x: real, n: nat)
    ensures Down(Up(x, n), n) == x
    ensures Up(Down(x, n), n) == x
    decreases n
  {
    if n > 0 {
      UpScales(x, n - 1);
      assert Up(x, n) / 10.0 == Up(x, n - 1);
      DownUp(x, n - 1);
      DownUp(x / 10.0, n - 1);
      UpScales(Down(x, n), n - 1);
      assert Down(x, n) == Down(x / 10.0, n - 1);
    }
  }

  function DigitOf(d: nat): char
    requires d < 10
  {
    "0123456789"[d]
  }

  predicate IsDigit(c: char)
  {
    '0' <= c <= '9'
  }

  function ValueOf(c: char): (d: nat)
    requires IsDigit(c)
    ensures d < 10
  {
    (c as int) - ('0' as int)
  }

  predicate IsDigits(s: string)
  {
    forall i | 0 <= i < |s| :: IsDigit(s[i])
  }

  function PrintNat(n: nat): (s: string)
    ensures s != "" && IsDigits(s)
    ensures n > 0 ==> s[0] != '0'
    ensures n == 0 ==> s == "0"
  {
    if n < 10 then [DigitOf(n)] else PrintNat(n / 10) + [DigitOf(n % 10)]
  }

  /** What is left of `n` without its last `width` digits, and those digits alone. */
  function Whole(n: nat, width: nat): nat
    decreases width
  {
    if width == 0 then n else Whole(n / 10, width - 1)
  }

  function Low(n: nat, width: nat): nat
    decreases width
  {
    if width == 0 then 0 else 10 * Low(n / 10, width - 1) + n % 10
  }

  /** The last `width` decimal digits of `n`, zero-padded. */
  function PrintPadded(n: nat, width: nat): (s: string)
    ensures |s| == width && IsDigits(s)
    decreases width
  {
    if width == 0 then "" else PrintPadded(n / 10, width - 1) + [DigitOf(n % 10)]
  }

  function ParseNat(s: string): nat
    requires IsDigits(s)
  {
    if s == "" then 0 else 10 * ParseNat(s[..|s| - 1]) + ValueOf(s[|s| - 1])
  }

  lemma ParseNatSnoc(front: string, d: nat)
    requires IsDigits(front) && d < 10
    ensures IsDigits(front + [DigitOf(d)])
    ensures ParseNat(front + [DigitOf(d)]) == 10 * ParseNat(front) + d
  {
    var s := front + [DigitOf(d)];
    assert s[..|s| - 1] == front;
  }

  lemma {:induction false} ParsePrintNat(n: nat)
    ensures ParseNat(PrintNat(n)) == n
    decreases n
  {
    if n >= 10 {
      ParsePrintNat(n / 10);
      ParseNatSnoc(PrintNat(n / 10), n % 10);
    } else {
      ParseNatSnoc("", n);
      assert "" + [DigitOf(n)] == [DigitOf(n)];
    }
  }

  lemma {:induction false} ParsePrintPadded(n: nat, width: nat)
    ensures ParseNat(PrintPadded(n, width)) == Low(n, width)
    decreases width
  {
    if width > 0 {
      ParsePrintPadded(n / 10, width - 1);
      ParseNatSnoc(PrintPadded(n / 10, width - 1), n % 10);
    }
  }

  lemma {:induction false} WholeAndLow(n: nat, width: nat)
    ensures Down(n as real, width) == Whole(n, width) as real + Down(Low(n, width) as real, width)
    decreases width
  {
    if width == 0 {
    } else {
      var q, r, l := (n / 10) as real, (n % 10) as real / 10.0, Low(n / 10, width - 1) as real;
      assert n == 10 * (n / 10) + n % 10;
      assert n as real / 10.0 == q + r;
      DownAdds(q, r, width - 1);
      WholeAndLow(n / 10, width - 1);
      assert Low(n, width) as real / 10.0 == l + r;
      DownAdds(l, r, width - 1);
    }
  }

  // ----- Rounding -----

  /** Nearest integer, ties to the even one. */
  function RoundHalfEven(x: real): int
  {
    var f := x.Floor;
    var d := x - f as real;
    if d < 0.5 || (d == 0.5 && f % 2 == 0) then f else f + 1
  }

  lemma RoundHalfEvenNear(x: real)
    ensures -0.5 <= RoundHalfEven(x) as real - x <= 0.5
    ensures x >= 0.0 ==> RoundHalfEven(x) >= 0
    ensures x == x.Floor as real ==> RoundHalfEven(x) as real == x
    ensures x >= 0.0 ==> (RoundHalfEven(x) > 0 <==> x > 0.5)
  {
  }

  function Magnitude(x: real): real
  {
    if x < 0.0 then -x else x
  }

  /** The integer whose digits `%.Nf` shows for `x`, sign aside. */
  function Scaled(x: real, decimals: nat): nat
  {
    UpNonNegative(Magnitude(x), decimals);
    RoundHalfEvenNear(Up(Magnitude(x), decimals));
    RoundHalfEven(Up(Magnitude(x), decimals))
  }

  lemma UpNonNegative(x: real, n: nat)
    requires x >= 0.0
    ensures Up(x, n) >= 0.0
  {
    DownUp(x, n);
    DownZero(n);
    DownMonotone(0.0, Up(x, n), n);
  }

  function Signed(negative: bool, m: real): real
  {
    if negative then -m else m
  }

  /** The number a reader of `%.Nf` output gets. */
  function Rounded(x: real, decimals: nat): real
  {
    Signed(x < 0.0, Down(Scaled(x, decimals) as real, decimals))
  }

  function PrintDigits(n: nat, decimals: nat): string
  {
    PrintNat(Whole(n, decimals)) + "." + PrintPadded(n, decimals)
  }

  /** `%.Nf` for at least one decimal. */
  function PrintFixed(x: real, decimals: nat): string
    requires decimals > 0
  {
    (if x < 0.0 then "-" else "") + PrintDigits(Scaled(x, decimals), decimals)
  }

  function ParseUnsigned(s: string): Option<real>
  {
    match IndexOf(s, '.')
    case None => None
    case Some(i) =>
      Compose(s[..i], s[i + 1..])
  }

  function Compose(whole: string, fraction: string): Option<real>
  {
    if whole == "" || fraction == "" || !IsDigits(whole) || !IsDigits(fraction) then None
    else Some(ParseNat(whole) as real + Down(ParseNat(fraction) as real, |fraction|))
  }

  /** A decimal literal with a point and an optional minus sign. */
  function ParseFixed(s: string): Option<real>
  {
    if HasPrefix(s, "-") then
      match ParseUnsigned(s[1..])
      case None => None
      case Some(v) => Some(-v)
    else ParseUnsigned(s)
  }

  lemma ParseAtPoint(whole: string, fraction: string)
    requires IsDigits(whole)
    ensures ParseUnsigned(whole + "." + fraction) == Compose(whole, fraction)
  {
    var s := whole + "." + fraction;
    assert '.' !in whole;
    IndexOfFirst(whole, '.', fraction);
    assert s[..|whole|] == whole && s[|whole| + 1..] == fraction;
  }

  lemma ParseUnsignedPrinted(n: nat, decimals: nat)
    requires decimals > 0
    ensures ParseUnsigned(PrintDigits(n, decimals)) == Some(Down(n as real, decimals))
  {
    ParseAtPoint(PrintNat(Whole(n, decimals)), PrintPadded(n, decimals));
    ParsePrintNat(Whole(n, decimals));
    ParsePrintPadded(n, decimals);
    WholeAndLow(n, decimals);
  }

  lemma ParseSigned(negative: bool, n: nat, decimals: nat)
    requires decimals > 0
    ensures ParseFixed((if negative then "-" else "") + PrintDigits(n, decimals))
         == Some(Signed(negative, Down(n as real, decimals)))
  {
    var body := PrintDigits(n, decimals);
    assert IsDigit(body[0]) by {
      assert IsDigit(PrintNat(Whole(n, decimals))[0]);
    }
    ParseUnsignedPrinted(n, decimals);
    hide PrintDigits, ParseUnsigned;
    if negative {
      assert ("-" + body)[1..] == body;
    } else {
      assert "" + body == body;
    }
  }

  /** Reading a printed number gives the rounded one. */
  lemma ParsePrinted(x: real, decimals: nat)
    requires decimals > 0
    ensures ParseFixed(PrintFixed(x, decimals)) == Some(Rounded(x, decimals))
  {
    ParseSigned(x < 0.0, Scaled(x, decimals), decimals);
  }

  /** Texts `%.Nf` can produce: no superfluous zero in front, exactly N decimals, no negative zero. */
  ghost predicate Canonical(s: string, decimals: nat)
  {
    exists negative: bool, n: nat :: CanonicalAs(s, decimals, negative, n)
  }

  ghost predicate CanonicalAs(s: string, decimals: nat, negative: bool, n: nat)
  {
    (negative ==> n > 0) && s == (if negative then "-" else "") + PrintDigits(n, decimals)
  }

  lemma ScaledExact(n: nat, decimals: nat, negative: bool)
    requires negative ==> n > 0
    ensures Scaled(Signed(negative, Down(n as real, decimals)), decimals) == n
    ensures Signed(negative, Down(n as real, decimals)) < 0.0 <==> negative
  {
    var x := Down(n as real, decimals);
    DownZero(decimals);
    DownMonotone(0.0, n as real, decimals);
    DownMonotone(n as real, 0.0, decimals);
    DownUp(n as real, decimals);
    assert Magnitude(Signed(negative, x)) == x;
    RoundHalfEvenNear(n as real);
  }

  /** Printing undoes reading on every text the printer can produce. */
  lemma PrintParsed(s: string, decimals: nat)
    requires decimals > 0 && Canonical(s, decimals)
    ensures ParseFixed(s).Some? && PrintFixed(ParseFixed(s).value, decimals) == s
  {
    var negative: bool, n: nat :| CanonicalAs(s, decimals, negative, n);
    ScaledExact(n, decimals, negative);
    ParseSigned(negative, n, decimals);
  }

  lemma RoundedMagnitude(x: real, decimals: nat)
    ensures Rounded(x, decimals) == x <==> Scaled(x, decimals) as real == Up(Magnitude(x), decimals)
  {
    DownUp(Magnitude(x), decimals);
    DownUp(Scaled(x, decimals) as real, decimals);
  }

  lemma RoundsToSelf(u: real)
    ensures RoundHalfEven(u) as real == u <==> u == u.Floor as real
  {
  }

  /** Printing then reading is the identity exactly on the numbers with at most `decimals` decimals. */
  lemma RoundedExact(x: real, decimals: nat)
    ensures Rounded(x, decimals) == x <==> Up(x, decimals) == Up(x, decimals).Floor as real
  {
    RoundedMagnitude(x, decimals);
    RoundsToSelf(Up(Magnitude(x), decimals));
    UpNegates(x, decimals);
    WholeMagnitude(Up(x, decimals));
  }

  lemma WholeNegates(x: real)
    requires x == x.Floor as real
    ensures -x == (-x).Floor as real
  {
    assert -x == (-x.Floor) as real;
  }

  lemma WholeMagnitude(x: real)
    ensures x == x.Floor as real <==> Magnitude(x) == Magnitude(x).Floor as real
  {
    if x == x.Floor as real { WholeNegates(x); }
    if -x == (-x).Floor as real { WholeNegates(-x); }
  }

  lemma UpNegates(x: real, n: nat)
    ensures Up(-x, n) == -Up(x, n)
    ensures Up(Magnitude(x), n) == Magnitude(Up(x, n))
    ensures x < 0.0 ==> Up(x, n) < 0.0
  {
    DownUp(x, n);
    DownNegates(Up(x, n), n);
    DownUp(-Up(x, n), n);
    DownZero(n);
    DownMonotone(0.0, Up(x, n), n);
  }

  /** The printed value is within half a unit of the last decimal. */
  lemma RoundedNear(x: real, decimals: nat)
    ensures Magnitude(Rounded(x, decimals) - x) <= Down(0.5, decimals)
  {
    var u := Up(Magnitude(x), decimals);
    var n := Scaled(x, decimals) as real;
    RoundHalfEvenNear(u);
    DownUp(Magnitude(x), decimals);
    DownAdds(n - u, u, decimals);
    assert n - u + u == n;
    DownMonotone(n - u, 0.5, decimals);
    DownMonotone(-0.5, n - u, decimals);
    DownNegates(0.5, decimals);
  }

  /** Halfway between two numbers with this many decimals the one with the even last digit is printed. */
  lemma TiesToEven(x: real, decimals: nat, n: nat)
    requires Magnitude(x) == Down(n as real + 0.5, decimals)
    ensures var even := if n % 2 == 0 then n else n + 1;
      Rounded(x, decimals) == Signed(x < 0.0, Down(even as real, decimals))
  {
    DownUp(n as real + 0.5, decimals);
    assert (n as real + 0.5).Floor == n;
  }

  // ----- The error budget as printed -----

  lemma TenDecimals(x: real)
    ensures Up(x, 10) == 1_0000000000.0 * x
    ensures Down(x, 10) == x / 1_0000000000.0
  {
    assert Up(x, 10) == Up(1000.0 * x, 7) == Up(1000000.0 * x, 4) == 1_0000000000.0 * x;
    assert Down(x, 10) == Down(x / 1000.0, 7) == Down(x / 1000000.0, 4) == x / 1_0000000000.0;
  }

  /** The printed budget is zero, and burn rates meaningless, exactly up to half a unit of the tenth decimal. */
  lemma PrintedBudgetPositive(budget: real)
    requires budget > 0.0
    ensures Rounded(budget, 10) >= 0.0
    ensures Rounded(budget, 10) > 0.0 <==> budget > 0.000_000_000_05
  {
    TenDecimals(budget);
    TenDecimals(Scaled(budget, 10) as real);
    RoundHalfEvenNear(1_0000000000.0 * budget);
  }

  /** `target` has at most ten decimals. */
  predicate TenDecimalTarget(target: real)
  {
    target * 1_0000000000.0 == (target * 1_0000000000.0).Floor as real
  }

  lemma WholeComplement(x: real)
    ensures x == x.Floor as real <==> 1_0000000000.0 - x == (1_0000000000.0 - x).Floor as real
  {
    var y := 1_0000000000.0 - x;
    if x == x.Floor as real {
      assert y == (1_0000000000 - x.Floor) as real;
    }
    if y == y.Floor as real {
      assert x == (1_0000000000 - y.Floor) as real;
    }
  }

  /** The printed budget equals the budget exactly when the target has at most ten decimals. */
  lemma PrintedBudgetExact(target: real)
    ensures Rounded(1.0 - target, 10) == 1.0 - target <==> TenDecimalTarget(target)
  {
    RoundedExact(1.0 - target, 10);
    TenDecimals(1.0 - target);
    WholeComplement(target * 1_0000000000.0);
  }

  lemma PrintedBudgetNear(budget: real)
    ensures Magnitude(Rounded(budget, 10) - budget) <= 0.000_000_000_05
  {
    RoundedNear(budget, 10);
    TenDecimals(0.5);
  }

  /**
   For targets up to 1 - 1e-10 the printed budget is positive, off by at most 5e-11, exact when the
   target has at most ten decimals, and shifts any burn rate by a factor of at most 1e-10 / budget.
   */
  lemma PrintedBudgetBound(target: real, errorRatio: real)
    requires 0.0 < target <= 1.0 - 0.000_000_000_1
    requires errorRatio >= 0.0
    ensures Rounded(1.0 - target, 10) > 0.0
    ensures Magnitude(Rounded(1.0 - target, 10) - (1.0 - target)) <= 0.000_000_000_05
    ensures TenDecimalTarget(target) <==> Rounded(1.0 - target, 10) == 1.0 - target
    ensures Magnitude(errorRatio / Rounded(1.0 - target, 10) - errorRatio / (1.0 - target))
         <= (0.000_000_000_1 / (1.0 - target)) * (errorRatio / (1.0 - target))
  {
    hide Rounded, TenDecimalTarget;
    var budget := 1.0 - target;
    var printed := Rounded(budget, 10);
    PrintedBudgetPositive(budget);
    PrintedBudgetNear(budget);
    PrintedBudgetExact(target);
    assert printed >= budget / 2.0;
    RelativeError(errorRatio, budget, printed, 0.000_000_000_05);
  }

  lemma ScaleUp(a: real, b: real, c: real)
    requires a <= b && c >= 0.0
    ensures a * c <= b * c
  {
  }

  lemma CancelUp(a: real, b: real, c: real)
    requires a * c <= b * c && c > 0.0
    ensures a <= b
  {
  }

  lemma QuotientAtMostDouble(r: real, e: real, p: real)
    requires r >= 0.0 && e > 0.0 && p >= e / 2.0
    ensures 0.0 <= r / e
    ensures 0.0 <= r / p <= 2.0 * (r / e)
  {
    var q, s := r / e, r / p;
    assert q * e == r && s * p == r;
    CancelUp(0.0, q, e);
    CancelUp(0.0, s, p);
    ScaleUp(e / 2.0, p, s);
    assert s * e <= (2.0 * q) * e;
    CancelUp(s, 2.0 * q, e);
  }

  lemma ErrorTimesBudget(q: real, s: real, e: real, p: real, d: real)
    requires q * e == s * p && 0.0 <= s <= 2.0 * q && 0.0 <= d
    requires -d <= p - e <= d
    ensures -(2.0 * q * d) <= (s - q) * e <= 2.0 * q * d
  {
    assert (s - q) * e == (e - p) * s;
    ScaleUp(e - p, d, s);
    ScaleUp(-d, e - p, s);
    ScaleUp(s, 2.0 * q, d);
  }

  lemma BoundTimes(d: real, e: real, q: real)
    requires e > 0.0
    ensures (((2.0 * d) / e) * q) * e == 2.0 * q * d
  {
    var k := (2.0 * d) / e;
    assert k * e == 2.0 * d;
    assert (k * q) * e == (k * e) * q;
  }

  lemma DivideTimes(r: real, e: real)
    requires e > 0.0
    ensures (r / e) * e == r
  {
  }

  /** A divisor off by at most `d` moves a quotient by a factor of at most 2d/e. */
  lemma RelativeError(r: real, e: real, p: real, d: real)
    requires r >= 0.0 && e > 0.0 && p >= e / 2.0 && d >= 0.0
    requires -d <= p - e <= d
    ensures Magnitude(r / p - r / e) <= ((2.0 * d) / e) * (r / e)
  {
    var q, s := r / e, r / p;
    QuotientAtMostDouble(r, e, p);
    DivideTimes(r, e);
    DivideTimes(r, p);
    ErrorTimesBudget(q, s, e, p, d);
    BoundTimes(d, e, q);
    CancelBoth(s - q, ((2.0 * d) / e) * q, e);
  }

  lemma CancelBoth(a: real, b: real, c: real)
    requires -(b * c) <= a * c <= b * c && c > 0.0
    ensures -b <= a <= b
  {
    CancelUp(a, b, c);
    assert (-b) * c == -(b * c);
    CancelUp(-b, a, c);
  }
}
