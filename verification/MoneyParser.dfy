/** Decimal amounts in a CSV cell, read as 32-bit cents. */
module MoneyParser {
  import opened Results

  const INT32_MAX: int := 0x7FFF_FFFF
  const INT32_MIN: int := -0x8000_0000

  predicate IsSpace(c: char) {
    c == ' ' || c == '\t' || c == '\r'
  }

  predicate IsDigit(c: char) {
    '0' <= c <= '9'
  }

  predicate AllDigits(s: string) {
    forall i :: 0 <= i < |s| ==> IsDigit(s[i])
  }

  function Digit(c: char): nat
    requires IsDigit(c)
  {
    c as int - '0' as int
  }

  /** The number a digit string denotes; none is 0. */
  function Nat(s: string): nat
    requires AllDigits(s)
  {
    if s == "" then 0 else 10 * Nat(s[..|s| - 1]) + Digit(s[|s| - 1])
  }

  function Pow10(n: nat): (r: nat)
    ensures r > 0
  {
    if n == 0 then 1 else 10 * Pow10(n - 1)
  }

  function Clamp(total: int): int {
    if total > INT32_MAX then INT32_MAX else if total < INT32_MIN then INT32_MIN else total
  }

  // ----- what a cell means

  /** d.f hundred-fold, rounded half up: the nearest number of cents. */
  function RoundedCents(d: string, f: string): nat
    requires AllDigits(d) && AllDigits(f)
  {
    Quotient(200 * Nat(d + f) + Pow10(|f|), 2 * Pow10(|f|))
  }

  /** Whole number of times `d` fits into `n`. */
  function Quotient(n: nat, d: nat): nat
    requires d > 0
  {
    if n < d then 0 else 1 + Quotient(n - d, d)
  }

  function TrimLeft(s: string): string {
    if s != "" && IsSpace(s[0]) then TrimLeft(s[1..]) else s
  }

  function TrimRight(s: string): string {
    if s != "" && IsSpace(s[|s| - 1]) then TrimRight(s[..|s| - 1]) else s
  }

  function Trim(s: string): string {
    TrimRight(TrimLeft(s))
  }

  /** The cell without outer blanks and without one pair of enclosing quotes; a lone quote counts as an empty pair. */
  function Core(s: string): string {
    var t := Trim(s);
    if t != "" && t[0] == '"' && t[|t| - 1] == '"' then (if |t| == 1 then "" else Trim(t[1..|t| - 1])) else t
  }

  predicate IsSign(c: char) {
    c == '+' || c == '-'
  }

  function Unsigned(u: string): string {
    if u != "" && IsSign(u[0]) then u[1..] else u
  }

  /** Length of the leading run of digits. */
  function DigitRun(s: string): (k: nat)
    ensures k <= |s| && AllDigits(s[..k]) && (k < |s| ==> !IsDigit(s[k]))
  {
    if s == "" || !IsDigit(s[0]) then 0
    else
      var k := 1 + DigitRun(s[1..]);
      assert forall i :: 0 < i < k ==> s[i] == s[1..][i - 1];
      k
  }

  /** An unsigned amount: digits, optionally a point and digits, at least one digit in all. */
  function Amount(r: string): Option<nat> {
    var k := DigitRun(r);
    if k == |r| then (if k == 0 then None else Some(RoundedCents(r, "")))
    else if r[k] != '.' then None
    else
      var f := r[k + 1..];
      if DigitRun(f) != |f| || (k == 0 && f == "") then None else Some(RoundedCents(r[..k], f[..DigitRun(f)]))
  }

  /** The value of a cell in cents; anything that is not an amount is worth 0. */
  function MoneyCents(s: string): int {
    var u := Core(s);
    match Amount(Unsigned(u))
    case None => 0
    case Some(cents) => Clamp(if u != "" && u[0] == '-' then 0 - (cents as int) else cents as int)
  }

  // ----- the arithmetic of the parser

  /** Whole cents of the first two fraction digits plus one if the third rounds up. */
  function TakenCents(d: string, f: string): nat
    requires AllDigits(d) && AllDigits(f)
  {
    100 * Nat(d) + (if |f| == 0 then 0 else if |f| == 1 then 10 * Digit(f[0]) else 10 * Digit(f[0]) + Digit(f[1]))
      + if |f| > 2 && Digit(f[2]) >= 5 then 1 else 0
  }

  lemma {:induction false} NatAppend(a: string, b: string)
    requires AllDigits(a) && AllDigits(b)
    ensures AllDigits(a + b) && Nat(a + b) == Nat(a) * Pow10(|b|) + Nat(b)
    decreases |b|
  {
    if b == "" {
      assert a + b == a;
    } else {
      var n := |b| - 1;
      NatAppend(a, b[..n]);
      assert (a + b)[..|a + b| - 1] == a + b[..n];
      TenTimes(Nat(a), Pow10(n), Nat(b[..n]));
    }
  }

  lemma TenTimes(x: nat, p: nat, y: nat)
    ensures 10 * (x * p + y) == x * (10 * p) + 10 * y
  {
  }

  lemma {:induction false} NatBelowPow(s: string)
    requires AllDigits(s)
    ensures Nat(s) < Pow10(|s|)
  {
    if s != "" {
      NatBelowPow(s[..|s| - 1]);
    }
  }

  /** Rounding q.(r/p) half up to a whole number looks at r only. */
  lemma HalfUp(q: nat, r: nat, p: nat)
    requires 0 <= r < p
    ensures Quotient(2 * (q * p + r) + p, 2 * p) == q + if 2 * r >= p then 1 else 0
  {
    var up := if 2 * r >= p then 1 else 0;
    var left := 2 * r + p - up * (2 * p);
    assert 0 <= left < 2 * p;
    assert (q + up) * (2 * p) == q * (2 * p) + up * (2 * p);
    assert q * (2 * p) == 2 * (q * p);
    assert 2 * (q * p + r) + p == (q + up) * (2 * p) + left;
    QuotientIs(2 * (q * p + r) + p, 2 * p, q + up, left);
  }

  lemma {:induction false} QuotientIs(n: nat, d: nat, q: nat, r: nat)
    requires r < d && n == q * d + r
    ensures Quotient(n, d) == q
    decreases q
  {
    if q > 0 {
      SuccTimes(q - 1, d);
      QuotientIs(n - d, d, q - 1, r);
    }
  }

  /** Every number is its quotient times the divisor plus a smaller rest. */
  lemma {:induction false} QuotientRest(n: nat, d: nat) returns (r: nat)
    requires d > 0
    ensures r < d && n == Quotient(n, d) * d + r
  {
    if n < d {
      r := n;
    } else {
      r := QuotientRest(n - d, d);
      SuccTimes(Quotient(n - d, d), d);
    }
  }

  lemma SuccTimes(q: nat, d: nat)
    ensures (q + 1) * d == q * d + d
  {
  }

  /** The remaining digits reach half of their unit exactly when the first of them is 5 or more. */
  lemma FirstDigitDecides(g: string)
    requires AllDigits(g) && g != ""
    ensures 2 * Nat(g) >= Pow10(|g|) <==> Digit(g[0]) >= 5
  {
    var n := |g| - 1;
    assert g == g[..1] + g[1..];
    NatAppend(g[..1], g[1..]);
    NatBelowPow(g[1..]);
    assert Nat(g[..1]) == Digit(g[0]) by { assert g[..1][..0] == ""; }
    if Digit(g[0]) >= 5 {
      TimesIsMonotone(5, Digit(g[0]), Pow10(n));
    } else {
      TimesIsMonotone(Digit(g[0]) + 1, 5, Pow10(n));
      SuccTimes(Digit(g[0]), Pow10(n));
    }
  }

  /** n units of 1/p are exactly c hundredths, so rounding changes nothing. */
  lemma ExactHundredths(n: nat, p: nat, c: nat)
    requires p > 0 && c * p == 100 * n
    ensures Quotient(200 * n + p, 2 * p) == c
  {
    assert c * (2 * p) == 2 * (c * p);
    QuotientIs(200 * n + p, 2 * p, c, p);
  }

  lemma NoDigits(d: string)
    requires AllDigits(d)
    ensures RoundedCents(d, "") == TakenCents(d, "")
  {
    assert d + "" == d && Pow10(0) == 1;
    ExactHundredths(Nat(d), 1, 100 * Nat(d));
  }

  lemma OneDigit(d: string, f: string)
    requires AllDigits(d) && AllDigits(f) && |f| == 1
    ensures RoundedCents(d, f) == TakenCents(d, f)
  {
    NatAppend(d, f);
    assert Pow10(1) == 10 && f[..0] == "" && Nat(f) == Digit(f[0]);
    ExactHundredths(Nat(d + f), 10, 10 * Nat(d + f));
  }

  lemma JustTwoDigits(d: string, f: string)
    requires AllDigits(d) && AllDigits(f) && |f| == 2
    ensures RoundedCents(d, f) == TakenCents(d, f)
  {
    NatAppend(d, f);
    TwoDigits(f);
    ExactHundredths(Nat(d + f), 100, Nat(d + f));
  }

  lemma TakenHead(d: string, f: string)
    requires AllDigits(d) && AllDigits(f) && |f| > 2
    ensures AllDigits(d + f[..2])
    ensures TakenCents(d, f) == Nat(d + f[..2]) + if Digit(f[2]) >= 5 then 1 else 0
  {
    NatAppend(d, f[..2]);
    TwoDigits(f[..2]);
  }

  lemma RoundedHead(d: string, f: string)
    requires AllDigits(d) && AllDigits(f) && |f| > 2
    ensures AllDigits(d + f[..2])
    ensures RoundedCents(d, f) == Nat(d + f[..2]) + if Digit(f[2]) >= 5 then 1 else 0
  {
    var h, g := f[..2], f[2..];
    assert d + f == (d + h) + g;
    NatAppend(d + h, g);
    NatBelowPow(g);
    FirstDigitDecides(g);
    HalfUp(Nat(d + h), Nat(g), Pow10(|g|));
    assert Pow10(|f|) == 10 * Pow10(|f| - 1) == 100 * Pow10(|g|);
    HundredFold(Nat(d + f), Pow10(|g|));
  }

  lemma ManyDigitsRound(d: string, f: string)
    requires AllDigits(d) && AllDigits(f) && |f| > 2
    ensures RoundedCents(d, f) == TakenCents(d, f)
  {
    TakenHead(d, f);
    RoundedHead(d, f);
  }

  lemma HundredFold(n: nat, p: nat)
    requires p > 0
    ensures Quotient(200 * n + 100 * p, 2 * (100 * p)) == Quotient(2 * n + p, 2 * p)
  {
    assert 200 * n + 100 * p == 100 * (2 * n + p) && 2 * (100 * p) == 100 * (2 * p);
    ScaledQuotient(2 * n + p, 2 * p);
  }

  /** Taking two digits and looking at the third is correct rounding. */
  lemma TakingIsRounding(d: string, f: string)
    requires AllDigits(d) && AllDigits(f)
    ensures RoundedCents(d, f) == TakenCents(d, f)
  {
    if f == "" {
      NoDigits(d);
    } else if |f| == 1 {
      OneDigit(d, f);
    } else if |f| == 2 {
      JustTwoDigits(d, f);
    } else {
      ManyDigitsRound(d, f);
    }
  }

  lemma TwoDigits(f: string)
    requires AllDigits(f) && |f| == 2
    ensures Nat(f) == 10 * Digit(f[0]) + Digit(f[1]) && Pow10(2) == 100
  {
    assert f[..1][..0] == "";
    assert Nat(f[..1]) == Digit(f[0]);
    assert Pow10(1) == 10;
  }

  lemma ScaledQuotient(n: nat, d: nat)
    requires d > 0
    ensures Quotient(100 * n, 100 * d) == Quotient(n, d)
  {
    var q := Quotient(n, d);
    var r := QuotientRest(n, d);
    assert q * (100 * d) == 100 * (q * d);
    QuotientIs(100 * n, 100 * d, q, 100 * r);
  }

  // ----- the parser

  lemma {:induction false} DigitRunIs(r: string, k: nat)
    requires k <= |r| && AllDigits(r[..k]) && (k < |r| ==> !IsDigit(r[k]))
    ensures DigitRun(r) == k
    decreases |r|
  {
    if k > 0 {
      assert IsDigit(r[..k][0]);
      forall i | 0 <= i < k - 1 ensures IsDigit(r[1..][i]) {
        assert r[1..][i] == r[..k][i + 1];
      }
      DigitRunIs(r[1..], k - 1);
    }
  }

  /** A slice without its first, or its last, character. */
  lemma SliceInward(s: string, a: nat, b: nat)
    requires a < b <= |s|
    ensures s[a..b][0] == s[a] && s[a..b][1..] == s[a + 1..b]
    ensures s[a..b][|s[a..b]| - 1] == s[b - 1] && s[a..b][..|s[a..b]| - 1] == s[a..b - 1]
  {
  }

  /** Moves the front end inwards over blanks. */
  method TrimFront(s: string, a0: nat, b: nat) returns (a: nat)
    requires a0 <= |s| && b <= |s|
    ensures if a0 > b then a == a0 else a0 <= a <= b && s[a..b] == TrimLeft(s[a0..b])
  {
    a := a0;
    while a < b && IsSpace(s[a])
      invariant a0 > b ==> a == a0
      invariant a0 <= b ==> a0 <= a <= b && TrimLeft(s[a..b]) == TrimLeft(s[a0..b])
    {
      SliceInward(s, a, b);
      a := a + 1;
    }
  }

  /** Moves the back end inwards over blanks. */
  method TrimBack(s: string, a: nat, b0: nat) returns (b: nat)
    requires a <= |s| && b0 <= |s|
    ensures if a > b0 then b == b0 else a <= b <= b0 && s[a..b] == TrimRight(s[a..b0])
    ensures a < b ==> !IsSpace(s[b - 1])
  {
    b := b0;
    while b > a && IsSpace(s[b - 1])
      invariant a > b0 ==> b == b0
      invariant a <= b0 ==> a <= b <= b0 && TrimRight(s[a..b]) == TrimRight(s[a..b0])
    {
      SliceInward(s, a, b);
      b := b - 1;
    }
    if a < b {
      SliceInward(s, a, b);
    }
  }

  /** Moves both ends of s[a..b] inwards over blanks; ends that have crossed stay as they are. */
  method TrimSpaces(s: string, a0: nat, b0: nat) returns (a: nat, b: nat)
    requires a0 <= |s| && b0 <= |s|
    ensures if a0 > b0 then a == a0 && b == b0 else a0 <= a <= b <= b0 && s[a..b] == Trim(s[a0..b0])
    ensures a < b ==> !IsSpace(s[b - 1])
  {
    a := TrimFront(s, a0, b0);
    b := TrimBack(s, a, b0);
  }

  /** Finds the core of the cell, or reports that nothing is left. */
  method FindCore(s: string) returns (a: nat, b: nat)
    ensures b <= |s| && (a < b ==> s[a..b] == Core(s) && !IsSpace(s[b - 1]))
    ensures a >= b ==> Core(s) == ""
  {
    a, b := TrimSpaces(s, 0, |s|);
    assert s[0..|s|] == s;
    if a >= b {
      return;
    }
    SliceEnds(s, a, b);
    if s[a] == '"' && s[b - 1] == '"' {
      a, b := a + 1, b - 1;
      a, b := TrimSpaces(s, a, b);
    }
  }

  /** The first and last character of a slice, and the slice between them. */
  lemma SliceEnds(s: string, a: nat, b: nat)
    requires a < b <= |s|
    ensures s[a..b][0] == s[a] && s[a..b][|s[a..b]| - 1] == s[b - 1]
    ensures a + 1 < b ==> s[a..b][1..|s[a..b]| - 1] == s[a + 1..b - 1]
  {
    if a + 1 < b {
      var inner := s[a..b][1..b - a - 1];
      forall i | 0 <= i < |inner| ensures inner[i] == s[a + 1..b - 1][i] {
      }
    }
  }

  lemma SlicePrefix(s: string, a0: nat, a: nat, b: nat)
    requires a0 <= a <= b <= |s|
    ensures s[a0..b][..a - a0] == s[a0..a]
    ensures a < b ==> s[a0..b][a - a0] == s[a]
  {
  }

  /** Reads the run of digits at `a0`. */
  method ReadDigits(s: string, a0: nat, b: nat) returns (a: nat, value: nat)
    requires a0 <= b <= |s|
    ensures a0 <= a <= b && AllDigits(s[a0..a]) && a - a0 == DigitRun(s[a0..b]) && value == Nat(s[a0..a])
  {
    a, value := a0, 0;
    while a < b && IsDigit(s[a])
      invariant a0 <= a <= b && AllDigits(s[a0..a]) && value == Nat(s[a0..a])
    {
      assert s[a0..a + 1] == s[a0..a] + [s[a]];
      value := value * 10 + Digit(s[a]);
      a := a + 1;
    }
    SlicePrefix(s, a0, a, b);
    DigitRunIs(s[a0..b], a - a0);
  }

  /** Reads at most two fraction digits at `a0`; one digit counts tens. */
  method ReadTwoDigits(s: string, a0: nat, b: nat) returns (a: nat, cents: nat)
    requires a0 <= b <= |s|
    ensures a0 <= a <= b && a - a0 <= 2 && AllDigits(s[a0..a]) && (a < b && IsDigit(s[a]) ==> a == a0 + 2)
    ensures cents < 100 && cents == TakenCents("", s[a0..a])
  {
    a, cents := a0, 0;
    var fracDigits := 0;
    while a < b && IsDigit(s[a]) && fracDigits < 2
      invariant a0 <= a <= b && fracDigits == a - a0 <= 2 && AllDigits(s[a0..a])
      invariant cents == if fracDigits == 0 then 0 else if fracDigits == 1 then Digit(s[a0])
        else 10 * Digit(s[a0]) + Digit(s[a0 + 1])
    {
      assert s[a0..a + 1] == s[a0..a] + [s[a]];
      cents := cents * 10 + Digit(s[a]);
      a := a + 1;
      fracDigits := fracDigits + 1;
    }
    if fracDigits == 1 {
      cents := cents * 10;
    }
  }

  /** Digits after the third do not count. */
  lemma OnlyThreeDigitsCount(f: string, g: string)
    requires AllDigits(f) && AllDigits(g) && |f| == 2 && |g| >= 3 && g[..2] == f
    ensures TakenCents("", g) == TakenCents("", f) + if Digit(g[2]) >= 5 then 1 else 0
  {
    assert g[0] == g[..2][0] && g[1] == g[..2][1];
  }

  /** Reads the fraction digits at `a0`: two are taken, the third decides the rounding, the others are skipped. */
  method ReadFraction(s: string, a0: nat, b: nat) returns (a: nat, cents: nat, roundUp: bool)
    requires a0 <= b <= |s|
    ensures a0 <= a <= b && AllDigits(s[a0..a]) && a - a0 == DigitRun(s[a0..b])
    ensures cents < 100 && cents + (if roundUp then 1 else 0) == TakenCents("", s[a0..a])
  {
    a, cents := ReadTwoDigits(s, a0, b);
    roundUp := false;
    if a < b && IsDigit(s[a]) {
      ghost var third := a;
      if s[a] >= '5' {
        roundUp := true;
      }
      while a < b && IsDigit(s[a])
        invariant third <= a <= b && AllDigits(s[a0..a]) && (a == third ==> a < b && IsDigit(s[a]))
      {
        assert s[a0..a + 1] == s[a0..a] + [s[a]];
        a := a + 1;
      }
      SlicePrefix(s, a0, third, a);
      OnlyThreeDigitsCount(s[a0..third], s[a0..a]);
    }
    SlicePrefix(s, a0, a, b);
    DigitRunIs(s[a0..b], a - a0);
  }

  /** An amount without a point fills the text with its digits. */
  lemma AmountWithoutPoint(r: string, k: nat)
    requires k == DigitRun(r) && (k < |r| ==> r[k] != '.')
    ensures Amount(r) == if k == |r| && k > 0 then Some(TakenCents(r[..k], "")) else None
  {
    assert k == |r| ==> r[..k] == r;
    TakingIsRounding(r[..k], "");
  }

  lemma WholeAndFraction(d: string, f: string)
    requires AllDigits(d) && AllDigits(f)
    ensures TakenCents(d, f) == 100 * Nat(d) + TakenCents("", f)
  {
  }

  /** An amount with a point fills the text with two runs of digits, not both empty. */
  lemma AmountWithPoint(r: string, d: string, tail: string, f: string)
    requires d == r[..DigitRun(r)] && |d| < |r| && r[|d|] == '.' && tail == r[|d| + 1..] && f == tail[..DigitRun(tail)]
    ensures Amount(r) == if f == tail && (d != "" || f != "") then Some(100 * Nat(d) + TakenCents("", f)) else None
  {
    TakingIsRounding(d, f);
    WholeAndFraction(d, f);
    assert f == tail <==> |f| == |tail|;
  }

  /** Reads the fraction at `start` and carries a rounding up into the dollars. */
  method ReadCents(s: string, start: nat, b: nat, dollars0: nat) returns (stop: nat, cents: nat, dollars: nat)
    requires start <= b <= |s|
    ensures start <= stop <= b && AllDigits(s[start..stop]) && stop - start == DigitRun(s[start..b])
    ensures dollars * 100 + cents == dollars0 * 100 + TakenCents("", s[start..stop])
  {
    var roundUp;
    dollars := dollars0;
    stop, cents, roundUp := ReadFraction(s, start, b);
    if roundUp {
      cents := cents + 1;
      if cents >= 100 {
        cents := 0;
        dollars := dollars + 1;
      }
    }
  }

  lemma Slices(s: string, a0: nat, a: nat, stop: nat, b: nat)
    requires a0 <= a < stop <= b <= |s|
    ensures s[a0..b][..a - a0] == s[a0..a] && s[a0..b][a - a0] == s[a] && s[a0..b][a - a0 + 1..] == s[a + 1..b]
    ensures s[a + 1..b][..stop - (a + 1)] == s[a + 1..stop]
    ensures s[a + 1..stop] == s[a + 1..b] <==> stop == b
  {
    assert |s[a + 1..stop]| == stop - a - 1 && |s[a + 1..b]| == b - a - 1;
  }

  lemma PartsWithPoint(s: string, a0: nat, a: nat, stop: nat, b: nat, total: nat)
    requires a0 <= a < stop <= b <= |s| && s[a] == '.'
    requires AllDigits(s[a0..a]) && a - a0 == DigitRun(s[a0..b])
    requires AllDigits(s[a + 1..stop]) && stop - (a + 1) == DigitRun(s[a + 1..b])
    requires total == 100 * Nat(s[a0..a]) + TakenCents("", s[a + 1..stop])
    ensures Amount(s[a0..b]) == if (a > a0 || stop > a + 1) && stop == b then Some(total) else None
  {
    Slices(s, a0, a, stop, b);
    AmountWithPoint(s[a0..b], s[a0..a], s[a + 1..b], s[a + 1..stop]);
  }

  lemma PartsWithoutPoint(s: string, a0: nat, a: nat, b: nat, total: nat)
    requires a0 <= a <= b <= |s| && (a < b ==> s[a] != '.')
    requires AllDigits(s[a0..a]) && a - a0 == DigitRun(s[a0..b]) && total == 100 * Nat(s[a0..a])
    ensures Amount(s[a0..b]) == if a > a0 && a == b then Some(total) else None
  {
    SlicePrefix(s, a0, a, b);
    AmountWithoutPoint(s[a0..b], a - a0);
    WholeAndFraction(s[a0..a], "");
  }

  /** Reads an unsigned amount at the start of s[a0..b]; `stop` is where it ends. */
  method ReadParts(s: string, a0: nat, b: nat) returns (seen: bool, total: nat, stop: nat)
    requires a0 < b <= |s|
    ensures a0 <= stop <= b
    ensures Amount(s[a0..b]) == if seen && stop == b then Some(total) else None
  {
    var a, dollars := ReadDigits(s, a0, b);
    var cents := 0;
    if a < b && s[a] == '.' {
      stop, cents, dollars := ReadCents(s, a + 1, b, dollars);
      seen, total := a > a0 || stop > a + 1, dollars * 100 + cents;
      PartsWithPoint(s, a0, a, stop, b, total);
    } else {
      stop, seen, total := a, a > a0, dollars * 100 + cents;
      PartsWithoutPoint(s, a0, a, b, total);
    }
  }

  /** Reads an unsigned amount that fills s[a0..b]. */
  method ReadAmount(s: string, a0: nat, b: nat) returns (ok: bool, total: nat)
    requires a0 < b <= |s| && !IsSpace(s[b - 1])
    ensures Amount(s[a0..b]) == if ok then Some(total) else None
  {
    var stop;
    ok, total, stop := ReadParts(s, a0, b);
    var a := stop;
    while a < b && IsSpace(s[a])
      invariant stop <= a <= b && (a > stop ==> IsSpace(s[a - 1]))
    {
      a := a + 1;
    }
    ok := ok && a == b;
  }

  /** The pointer-walking parser computes the meaning of the cell. */
  method ParseMoneyCents(s: string) returns (r: int)
    ensures r == MoneyCents(s)
  {
    var a, b := FindCore(s);
    if a >= b {
      return 0;
    }
    ghost var u := s[a..b];
    var neg := false;
    if s[a] == '+' || s[a] == '-' {
      neg := s[a] == '-';
      assert u[1..] == s[a + 1..b];
      a := a + 1;
      if a >= b {
        return 0;
      }
    }
    var ok, cents := ReadAmount(s, a, b);
    if !ok {
      return 0;
    }
    var total: int := cents;
    if neg {
      total := -total;
    }
    r := Clamp(total);
  }

  // ----- what cells mean

  /** A sign, digits, and optionally a point with more digits; at least one digit in all. */
  datatype Decimal = Decimal(sign: string, whole: string, point: bool, fraction: string) {

    predicate Valid() {
      && (sign == "" || sign == "+" || sign == "-") && AllDigits(whole) && AllDigits(fraction)
      && whole + fraction != "" && (fraction != "" ==> point)
    }

    function Unsigned(): string {
      if point then whole + ['.'] + fraction else whole
    }

    function Text(): string {
      sign + Unsigned()
    }

    /** The nearest 32-bit number of cents, halves away from zero. */
    function Cents(): int
      requires Valid()
    {
      var cents: int := RoundedCents(whole, fraction);
      Clamp(if sign == "-" then -cents else cents)
    }
  }

  lemma AmountOfDecimal(m: Decimal)
    requires m.Valid()
    ensures Amount(m.Unsigned()) == Some(RoundedCents(m.whole, m.fraction))
  {
    var r, k := m.Unsigned(), |m.whole|;
    assert r[..k] == m.whole;
    DigitRunIs(r, k);
    if m.point {
      var tail := r[k + 1..];
      assert tail == m.fraction && tail[..|tail|] == tail;
      DigitRunIs(tail, |tail|);
    } else {
      assert m.whole + m.fraction == m.whole;
    }
  }

  /** Spaces, tabs and carriage returns, and nothing else. */
  ghost predicate Blank(pad: string) {
    forall i :: 0 <= i < |pad| ==> pad[i] == ' ' || pad[i] == '\t' || pad[i] == '\r'
  }

  lemma {:induction false} TrimLeftBlanks(pad: string, s: string)
    requires Blank(pad) && (s == "" || !IsSpace(s[0]))
    ensures TrimLeft(pad + s) == s
  {
    if pad == "" {
      assert pad + s == s;
    } else {
      assert (pad + s)[1..] == pad[1..] + s;
      TrimLeftBlanks(pad[1..], s);
    }
  }

  lemma {:induction false} TrimRightBlanks(s: string, pad: string)
    requires Blank(pad) && (s == "" || !IsSpace(s[|s| - 1]))
    ensures TrimRight(s + pad) == s
  {
    if pad == "" {
      assert s + pad == s;
    } else {
      assert (s + pad)[..|s + pad| - 1] == s + pad[..|pad| - 1];
      TrimRightBlanks(s, pad[..|pad| - 1]);
    }
  }

  /** Trimming only takes blanks away. */
  lemma {:induction false} TrimLeftSplits(s: string) returns (pad: string)
    ensures Blank(pad) && s == pad + TrimLeft(s)
  {
    if s != "" && IsSpace(s[0]) {
      pad := TrimLeftSplits(s[1..]);
      pad := [s[0]] + pad;
    } else {
      pad := "";
    }
  }

  lemma {:induction false} TrimRightSplits(s: string) returns (pad: string)
    ensures Blank(pad) && s == TrimRight(s) + pad
  {
    if s != "" && IsSpace(s[|s| - 1]) {
      pad := TrimRightSplits(s[..|s| - 1]);
      pad := pad + [s[|s| - 1]];
    } else {
      pad := "";
    }
  }

  lemma TrimSplits(s: string) returns (left: string, right: string)
    ensures Blank(left) && Blank(right) && s == left + Trim(s) + right
  {
    left := TrimLeftSplits(s);
    right := TrimRightSplits(TrimLeft(s));
    assert left + (Trim(s) + right) == left + Trim(s) + right;
  }

  lemma TrimPadded(left: string, s: string, right: string)
    requires Blank(left) && Blank(right) && s != "" && !IsSpace(s[0]) && !IsSpace(s[|s| - 1])
    ensures Trim(left + s + right) == s
  {
    assert left + s + right == left + (s + right);
    TrimLeftBlanks(left, s + right);
    TrimRightBlanks(s, right);
  }

  lemma DecimalEnds(m: Decimal)
    requires m.Valid()
    ensures m.Text() != "" && !IsSpace(m.Text()[0]) && !IsSpace(m.Text()[|m.Text()| - 1]) && m.Text()[0] != '"'
  {
    var u := m.Unsigned();
    assert u != "";
    assert IsDigit(u[0]) || u[0] == '.';
    assert IsDigit(u[|u| - 1]) || u[|u| - 1] == '.';
    assert m.Text()[|m.Text()| - 1] == u[|u| - 1];
  }

  lemma SignOfText(m: Decimal)
    requires m.Valid()
    ensures Unsigned(m.Text()) == m.Unsigned() && m.Text() != "" && (m.Text()[0] == '-' <==> m.sign == "-")
  {
    DecimalEnds(m);
    var u := m.Unsigned();
    assert IsDigit(u[0]) || u[0] == '.';
    if m.sign == "" {
      assert m.Text() == u;
    } else {
      assert m.Text()[1..] == u && m.Text()[0] == m.sign[0];
    }
  }

  lemma MoneyOfCore(s: string, m: Decimal)
    requires m.Valid() && Core(s) == m.Text()
    ensures MoneyCents(s) == m.Cents()
  {
    SignOfText(m);
    AmountOfDecimal(m);
  }

  lemma CoreOfPlain(left: string, m: Decimal, right: string)
    requires m.Valid() && Blank(left) && Blank(right)
    ensures Core(left + m.Text() + right) == m.Text()
  {
    DecimalEnds(m);
    TrimPadded(left, m.Text(), right);
  }

  function InQuotes(s: string): string {
    ['"'] + s + ['"']
  }

  lemma CoreOfQuoted(left: string, inner: string, right: string)
    requires Blank(left) && Blank(right)
    ensures Core(left + InQuotes(inner) + right) == Trim(inner)
  {
    var q := InQuotes(inner);
    TrimPadded(left, q, right);
    assert q[1..|q| - 1] == inner;
  }

  /** A decimal is worth its value times 100, rounded half away from zero and clamped
      to 32 bits, with any blanks around it and with or without enclosing quotes. */
  lemma MoneyOfDecimal(m: Decimal, left: string, right: string, innerLeft: string, innerRight: string)
    requires m.Valid() && Blank(left) && Blank(right) && Blank(innerLeft) && Blank(innerRight)
    ensures MoneyCents(left + m.Text() + right) == m.Cents()
    ensures MoneyCents(left + InQuotes(innerLeft + m.Text() + innerRight) + right) == m.Cents()
  {
    CoreOfPlain(left, m, right);
    MoneyOfCore(left + m.Text() + right, m);
    CoreOfQuoted(left, innerLeft + m.Text() + innerRight, right);
    DecimalEnds(m);
    TrimPadded(innerLeft, m.Text(), innerRight);
    MoneyOfCore(left + InQuotes(innerLeft + m.Text() + innerRight) + right, m);
  }

  /** A text with an amount is a decimal without its sign. */
  lemma AmountIsDecimal(r: string, sign: string) returns (m: Decimal)
    requires Amount(r).Some? && (sign == "" || sign == "+" || sign == "-")
    ensures m.Valid() && m.sign == sign && m.Unsigned() == r
  {
    var k := DigitRun(r);
    if k == |r| {
      assert r[..k] == r && r + "" == r;
      m := Decimal(sign, r, false, "");
    } else {
      var f := r[k + 1..];
      assert f[..DigitRun(f)] == f;
      assert r == r[..k] + ['.'] + f;
      m := Decimal(sign, r[..k], true, f);
    }
  }

  /** The cell is the decimal with blanks around it. */
  ghost predicate PlainCell(s: string, m: Decimal, left: string, right: string) {
    Blank(left) && Blank(right) && s == left + m.Text() + right
  }

  /** The cell is the decimal in quotes, with blanks inside and around them. */
  ghost predicate QuotedCell(
      s: string, m: Decimal, left: string, right: string, innerLeft: string, innerRight: string)
  {
    && Blank(left) && Blank(right) && Blank(innerLeft) && Blank(innerRight)
    && s == left + InQuotes(innerLeft + m.Text() + innerRight) + right
  }

  ghost predicate Writes(s: string, m: Decimal) {
    || (exists left, right :: PlainCell(s, m, left, right))
    || (exists left, right, innerLeft, innerRight :: QuotedCell(s, m, left, right, innerLeft, innerRight))
  }

  lemma CoreIsWritten(s: string, m: Decimal)
    requires m.Valid() && Core(s) == m.Text()
    ensures Writes(s, m)
  {
    var t := Trim(s);
    var left, right := TrimSplits(s);
    DecimalEnds(m);
    if t != "" && t[0] == '"' && t[|t| - 1] == '"' {
      assert |t| != 1;
      var inner := t[1..|t| - 1];
      var innerLeft, innerRight := TrimSplits(inner);
      assert t == InQuotes(inner);
      assert QuotedCell(s, m, left, right, innerLeft, innerRight);
    } else {
      assert PlainCell(s, m, left, right);
    }
  }

  /** Nothing else has a value: a cell that does not count as 0 is a decimal, with blanks and quotes around it, and is
      worth that decimal. */
  lemma OnlyDecimalsCount(s: string)
    ensures MoneyCents(s) != 0 ==> exists m: Decimal :: m.Valid() && Writes(s, m) && MoneyCents(s) == m.Cents()
  {
    var u := Core(s);
    var sign := if u != "" && IsSign(u[0]) then [u[0]] else "";
    if Amount(Unsigned(u)).Some? {
      assert u == sign + Unsigned(u);
      var m := AmountIsDecimal(Unsigned(u), sign);
      assert m.Text() == u;
      MoneyOfCore(s, m);
      CoreIsWritten(s, m);
    }
  }

  // ----- the value in numbers

  /** `RoundedCents` is the number of cents nearest to the value, the larger one of two equally near. */
  lemma RoundedIsNearest(d: string, f: string)
    requires AllDigits(d) && AllDigits(f)
    ensures var v, n, p := RoundedCents(d, f), Nat(d + f), Pow10(|f|);
      v * (2 * p) <= 200 * n + p < v * (2 * p) + 2 * p
  {
    var r := QuotientRest(200 * Nat(d + f) + Pow10(|f|), 2 * Pow10(|f|));
  }

  lemma WrittenIsWorth(m: Decimal, s: string)
    requires m.Valid() && Writes(s, m)
    ensures MoneyCents(s) == m.Cents()
  {
    if exists left, right :: PlainCell(s, m, left, right) {
      var left, right :| PlainCell(s, m, left, right);
      MoneyOfDecimal(m, left, right, "", "");
    } else {
      var left, right, innerLeft, innerRight :| QuotedCell(s, m, left, right, innerLeft, innerRight);
      MoneyOfDecimal(m, left, right, innerLeft, innerRight);
    }
  }

  /** A cell with a decimal is worth the nearest number of cents `v`, with the sign of the decimal, if that is
      a 32-bit number, and else the 32-bit number that is nearest to it. */
  lemma MoneyIsNearest(m: Decimal, s: string) returns (v: int)
    requires m.Valid() && Writes(s, m)
    ensures var n, p := Nat(m.whole + m.fraction), Pow10(|m.fraction|); v * (2 * p) <= 200 * n + p < v * (2 * p) + 2 * p
    ensures var signed := if m.sign == "-" then 0 - v else v;
      && (-2147483648 <= signed <= 2147483647 ==> MoneyCents(s) == signed)
      && (signed > 2147483647 ==> MoneyCents(s) == 2147483647)
      && (signed < -2147483648 ==> MoneyCents(s) == -2147483648)
  {
    v := RoundedCents(m.whole, m.fraction);
    RoundedIsNearest(m.whole, m.fraction);
    WrittenIsWorth(m, s);
  }

  lemma DigitsAreThese(c: char)
    ensures IsDigit(c) <==> c in "0123456789"
  {
  }

  /** Numerals are decimal. */
  lemma NumeralsAreDecimal(s: string, c: char)
    requires AllDigits(s) && c in "0123456789"
    ensures AllDigits(s + [c])
    ensures var digit :=
        if c == '0' then 0 else if c == '1' then 1 else if c == '2' then 2 else if c == '3' then 3
        else if c == '4' then 4 else if c == '5' then 5 else if c == '6' then 6 else if c == '7' then 7
        else if c == '8' then 8 else 9;
      Nat("") == 0 && Nat(s + [c]) == 10 * Nat(s) + digit
  {
    assert (s + [c])[..|s|] == s;
  }

  // ----- printing

  function DigitChar(n: nat): char
    requires n < 10
  {
    ('0' as int + n) as char
  }

  function NatText(n: nat): string {
    if n < 10 then [DigitChar(n)] else NatText(n / 10) + [DigitChar(n % 10)]
  }

  lemma {:induction false} NatTextDenotes(n: nat)
    ensures NatText(n) != "" && AllDigits(NatText(n)) && Nat(NatText(n)) == n
  {
    if n >= 10 {
      NatTextDenotes(n / 10);
      assert NatText(n)[..|NatText(n)| - 1] == NatText(n / 10);
    } else {
      assert NatText(n)[..0] == "";
    }
  }

  /** An amount in cents printed with two decimals. */
  function Printed(cents: int): Decimal {
    var a: nat := if cents < 0 then -cents else cents;
    Decimal(if cents < 0 then "-" else "", NatText(a / 100), true, [DigitChar(a % 100 / 10), DigitChar(a % 10)])
  }

  lemma PrintedIsExact(cents: int)
    ensures Printed(cents).Valid() && |Printed(cents).fraction| == 2
    ensures Printed(cents).sign == if cents < 0 then "-" else ""
    ensures RoundedCents(Printed(cents).whole, Printed(cents).fraction) == if cents < 0 then -cents else cents
  {
    var m := Printed(cents);
    var a: nat := if cents < 0 then -cents else cents;
    NatTextDenotes(a / 100);
    TakingIsRounding(m.whole, m.fraction);
    assert a % 100 == 10 * (a % 100 / 10) + a % 10;
  }

  /** Parsing inverts printing for every 32-bit amount. */
  lemma ParsingInvertsPrinting(cents: int)
    requires INT32_MIN <= cents <= INT32_MAX
    ensures MoneyCents(Printed(cents).Text()) == cents
  {
    PrintedIsExact(cents);
    MoneyOfDecimal(Printed(cents), "", "", "", "");
    assert "" + Printed(cents).Text() + "" == Printed(cents).Text();
  }
}
