/** Amounts of money are exact decimals; totals are compared after rounding both sides to cents, halves to even. */
module Money {
  import opened Options

  /** Halves are rounded to even. */
  function Round(y: real): int {
    var down := y.Floor;
    var rest := y - down as real;
    if rest < 0.5 || (rest == 0.5 && down % 2 == 0) then down else down + 1
  }

  /** `normalize_money` in cents. */
  function Cents(x: real): int {
    Round(x * 100.0)
  }

  function Abs(x: real): real {
    if x < 0.0 then -x else x
  }

  // ---------- rounding ----------

  lemma RoundIsNearest(y: real, n: int)
    ensures Round(y) == n <==> if n % 2 == 0 then Abs(y - n as real) <= 0.5 else Abs(y - n as real) < 0.5
  {
    var down := y.Floor;
    assert down as real <= y < down as real + 1.0;
    if n == down {
    } else if n == down + 1 {
      assert n % 2 == 0 <==> down % 2 != 0;
    } else if n < down {
      assert n as real <= down as real - 1.0;
    } else {
      assert n as real >= down as real + 2.0;
    }
  }

  /** Rounding as an interval: a number of cents stands for the amounts at most half a cent away, and for the two
      amounts exactly half a cent away only if it is even. */
  lemma RoundsToInterval(x: real, n: int)
    ensures Cents(x) == n <==>
            if n % 2 == 0 then Abs(x * 100.0 - n as real) <= 0.5 else Abs(x * 100.0 - n as real) < 0.5
  {
    RoundIsNearest(x * 100.0, n);
  }

  lemma RoundingIsMonotone(x: real, y: real)
    requires x <= y
    ensures Cents(x) <= Cents(y)
  {
    RoundsToInterval(x, Cents(x));
    RoundsToInterval(y, Cents(y));
  }

  /** Halves to even treat debts like assets. */
  lemma RoundingIsOdd(x: real)
    ensures Cents(-x) == -Cents(x)
  {
    RoundsToInterval(x, Cents(x));
    RoundsToInterval(-x, -Cents(x));
    assert (-Cents(x)) % 2 == 0 <==> Cents(x) % 2 == 0;
  }

  lemma CentsAreKept(n: int)
    ensures Cents(n as real / 100.0) == n
  {
    RoundsToInterval(n as real / 100.0, n);
  }

  // ---------- totals ----------

  /** The check of invoices and receipts. */
  method TotalWarns(subtotal: Option<real>, tax: Option<real>, total: Option<real>) returns (warns: bool)
    ensures warns <==> subtotal.Some? && tax.Some? && total.Some? && IsMismatch(total.value, subtotal.value + tax.value)
  {
    if subtotal.None? || tax.None? || total.None? { return false; }
    var expected := Cents(subtotal.value + tax.value);
    warns := Cents(total.value) != expected;
  }

  predicate IsMismatch(stated: real, expected: real) {
    Cents(stated) != Cents(expected)
  }

  /** Without a warning the stated amount is at most one cent off; more than one cent always warns. */
  lemma NoWarningMeansClose(stated: real, expected: real)
    requires !IsMismatch(stated, expected)
    ensures Abs(stated - expected) <= 0.01
  {
    RoundsToInterval(stated, Cents(stated));
    RoundsToInterval(expected, Cents(stated));
  }

  /** The bound is attained: both 1.5 and 2.5 cents round to 2. */
  lemma WholeCentUnnoticed()
    ensures !IsMismatch(0.015, 0.025) && Abs(0.015 - 0.025) == 0.01
  {
    RoundsToInterval(0.015, 2);
    RoundsToInterval(0.025, 2);
  }

  /** No gap is too small to warn: at every odd half cent an arbitrarily small step up changes the rounded amount. */
  lemma SmallGapsMayWarn(n: int, gap: real)
    requires 0.0 < gap < 0.01
    ensures var x := (2 * n) as real / 100.0 + 0.005; Abs(x + gap - x) == gap && IsMismatch(x + gap, x)
  {
    var x := (2 * n) as real / 100.0 + 0.005;
    RoundsToInterval(x, 2 * n);
    RoundsToInterval(x + gap, 2 * n + 1);
  }

  /** On amounts in whole cents the check is exact. */
  lemma ExactOnCents(stated: int, expected: int)
    ensures IsMismatch(stated as real / 100.0, expected as real / 100.0) <==> stated != expected
  {
    CentsAreKept(stated);
    CentsAreKept(expected);
  }

  // ---------- payslips ----------

  function Sum(amounts: seq<real>): real {
    if amounts == [] then 0.0 else Sum(amounts[..|amounts| - 1]) + amounts[|amounts| - 1]
  }

  method PayslipWarns(gross: Option<real>, net: Option<real>, deductions: Option<seq<real>>) returns (warns: bool)
    ensures warns <==> gross.Some? && net.Some? && deductions.Some?
                       && IsMismatch(net.value, gross.value - Sum(deductions.value))
  {
    if gross.None? || net.None? || deductions.None? { return false; }
    var total := 0.0;
    for i := 0 to |deductions.value|
      invariant total == Sum(deductions.value[..i])
    {
      assert deductions.value[..i + 1][..i] == deductions.value[..i];
      total := total + deductions.value[i];
    }
    assert deductions.value[..|deductions.value|] == deductions.value;
    var expected := Cents(gross.value - total);
    warns := Cents(net.value) != expected;
  }

  lemma {:induction false} SumWithout(amounts: seq<real>, i: nat)
    requires i < |amounts|
    ensures Sum(amounts) == Sum(amounts[..i] + amounts[i + 1..]) + amounts[i]
  {
    var n := |amounts| - 1;
    var front, rest := amounts[..n], amounts[..i] + amounts[i + 1..];
    if i < n {
      SumWithout(front, i);
      assert |rest| == n && rest[n - 1] == amounts[n] && rest[..n - 1] == front[..i] + front[i + 1..];
      assert Sum(rest) == Sum(front[..i] + front[i + 1..]) + amounts[n];
    } else {
      assert rest == front;
    }
  }

  lemma Without(b: seq<real>, i: nat)
    requires i < |b|
    ensures multiset(b) == multiset(b[..i] + b[i + 1..]) + multiset{b[i]}
  {
    assert b == b[..i] + ([b[i]] + b[i + 1..]);
  }

  lemma FindAmount(a: seq<real>, b: seq<real>) returns (i: nat)
    requires multiset(a) == multiset(b) && a != []
    ensures i < |b| && b[i] == a[|a| - 1]
    ensures multiset(a[..|a| - 1]) == multiset(b[..i] + b[i + 1..])
  {
    var last := a[|a| - 1];
    assert last in multiset(a);
    i :| 0 <= i < |b| && b[i] == last;
    Without(b, i);
    Without(a, |a| - 1);
    var front, rest := a[..|a| - 1], b[..i] + b[i + 1..];
    assert front + a[|a|..] == front;
    assert multiset(front) + multiset{last} == multiset(rest) + multiset{last};
    assert multiset(front) == (multiset(front) + multiset{last}) - multiset{last};
    assert multiset(rest) == (multiset(rest) + multiset{last}) - multiset{last};
  }

  /** The order of the deductions does not matter. */
  lemma {:induction false} SumIgnoresOrder(a: seq<real>, b: seq<real>)
    requires multiset(a) == multiset(b)
    ensures Sum(a) == Sum(b)
  {
    assert |a| == |multiset(a)| && |b| == |multiset(b)|;
    if a != [] {
      var i := FindAmount(a, b);
      SumWithout(b, i);
      SumIgnoresOrder(a[..|a| - 1], b[..i] + b[i + 1..]);
    }
  }

  lemma DeductionOrderIsIrrelevant(gross: real, net: real, a: seq<real>, b: seq<real>)
    requires multiset(a) == multiset(b)
    ensures IsMismatch(net, gross - Sum(a)) <==> IsMismatch(net, gross - Sum(b))
  {
    SumIgnoresOrder(a, b);
  }
}
