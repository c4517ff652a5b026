/**
 * The fixed-rate mortgage arithmetic of the rental calculator: the annuity
 * payment (calculator.js:222-224) and the month-by-month split of each payment
 * into interest and principal (calculator.js:251-259).
 */
module Amortization {
  import opened JsMath

  /** The monthly rate for an annual percentage: 6 means 6% a year, 0.005 a month. */
  function MonthlyRate(annualRatePercent: real): real
  {
    annualRatePercent / 100.0 / 12.0
  }

  /**
   * The fixed monthly payment of a loan of `principal` at `annualRatePercent`
   * over `termYears` years of monthly payments.  The source divides by the
   * growth factor less one, which is zero exactly for a rate of 0% or -2400%
   * (GrowthIsOne), so those two rates are excluded.  For a monthly rate of at
   * least -100% the payment covers the first month's interest on a
   * non-negative loan, and for a positive rate it exceeds it.
   */
  function MonthlyPayment(principal: real, annualRatePercent: real, termYears: nat): (m: real)
    requires termYears >= 1 && annualRatePercent != 0.0 && annualRatePercent != -2400.0
    ensures annualRatePercent >= -1200.0 && principal >= 0.0 ==> m >= principal * MonthlyRate(annualRatePercent)
    ensures annualRatePercent > 0.0 && principal > 0.0 ==> m > principal * MonthlyRate(annualRatePercent)
    ensures annualRatePercent > 0.0 && principal < 0.0 ==> m < principal * MonthlyRate(annualRatePercent)
  {
    var r := MonthlyRate(annualRatePercent);
    var growth := Pow(1.0 + r, termYears * 12);
    GrowthIsOne(annualRatePercent, termYears);
    PaymentAgainstInterest(principal, r, growth);
    principal * (r * growth) / (growth - 1.0)
  }

  /**
   * The growth factor `(1 + r)^(12 * termYears)` the payment divides by (less
   * one) is one exactly for a rate of 0% or -2400% (a monthly factor of 1 or
   * -1, raised to an even power).  It is above one for a positive rate, and in
   * [0, 1) for a negative rate of at least -1200% a year.
   */
  lemma GrowthIsOne(annualRatePercent: real, termYears: nat)
    requires termYears >= 1
    ensures var g := Pow(1.0 + MonthlyRate(annualRatePercent), termYears * 12);
      && (g == 1.0 <==> annualRatePercent == 0.0 || annualRatePercent == -2400.0)
      && (annualRatePercent > 0.0 ==> g > 1.0)
      && (-1200.0 <= annualRatePercent < 0.0 ==> 0.0 <= g < 1.0)
  {
    var x := 1.0 + MonthlyRate(annualRatePercent);
    var k := termYears * 6;
    PowSquare(x, k);
    assert termYears * 12 == 2 * k;
    if annualRatePercent == 0.0 {
      PowOne(k);
    } else if annualRatePercent == -2400.0 {
      assert x * x == 1.0;
      PowOne(k);
    } else {
      SquareNotOne(x);
      if x * x > 1.0 {
        PowAboveOne(x * x, k);
      } else {
        PowBelowOne(x * x, k);
      }
      if annualRatePercent > 0.0 {
        PowAboveOne(x, termYears * 12);
      } else if annualRatePercent >= -1200.0 {
        PowBelowOne(x, termYears * 12);
      }
    }
  }

  /** Only 1 and -1 square to one; every square is non-negative. */
  lemma SquareNotOne(x: real)
    requires x != 1.0 && x != -1.0
    ensures 0.0 <= x * x != 1.0
  {
    assert x * x - 1.0 == (x - 1.0) * (x + 1.0);
  }

  /**
   * The annuity payment against the first month's interest: above it for a
   * positive rate (growth above one), and no smaller than it on a
   * non-negative loan for a monthly rate in [-1, 0) (growth in [0, 1)).
   */
  lemma PaymentAgainstInterest(principal: real, r: real, growth: real)
    requires growth != 1.0
    requires r > 0.0 ==> growth > 1.0
    requires -1.0 <= r < 0.0 ==> 0.0 <= growth < 1.0
    ensures r >= -1.0 && principal >= 0.0 ==> principal * (r * growth) / (growth - 1.0) >= principal * r
    ensures r > 0.0 && principal > 0.0 ==> principal * (r * growth) / (growth - 1.0) > principal * r
    ensures r > 0.0 && principal < 0.0 ==> principal * (r * growth) / (growth - 1.0) < principal * r
  {
    if r > 0.0 {
      PaymentExceedsInterest(principal, r, growth);
    } else if r >= -1.0 && principal >= 0.0 {
      var q := (r * growth) / (growth - 1.0);
      ScaleQuotient(principal, r * growth, growth - 1.0);
      if r < 0.0 {
        assert r * growth <= 0.0;
        QuotientOfNonPositives(r * growth, growth - 1.0);
        MulMonotone(0.0, q, principal);
      }
    }
  }

  /** The annuity payment is the interest on the principal scaled by growth / (growth - 1) > 1. */
  lemma PaymentExceedsInterest(principal: real, r: real, growth: real)
    requires r > 0.0 && growth > 1.0
    ensures principal >= 0.0 ==> principal * (r * growth) / (growth - 1.0) >= principal * r
    ensures principal > 0.0 ==> principal * (r * growth) / (growth - 1.0) > principal * r
    ensures principal < 0.0 ==> principal * (r * growth) / (growth - 1.0) < principal * r
  {
    var f := growth / (growth - 1.0);
    DivAboveOne(growth, growth - 1.0);
    assert principal * (r * growth) / (growth - 1.0) == (principal * r) * f;
    if principal > 0.0 {
      assert principal * r > 0.0;
      assert (principal * r) * f > (principal * r) * 1.0;
    } else if principal < 0.0 {
      assert principal * r < 0.0;
      assert (principal * r) * f < (principal * r) * 1.0;
    }
  }

  lemma QuotientOfNonPositives(a: real, d: real)
    requires a <= 0.0 && d < 0.0
    ensures a / d >= 0.0
  {
    assert (a / d) * d == a;
  }

  lemma ScaleQuotient(p: real, x: real, d: real)
    requires d != 0.0
    ensures p * x / d == p * (x / d)
  {
    var q := x / d;
    assert q * d == x;
    assert (p * q) * d == p * x;
  }

  lemma DivAboveOne(a: real, d: real)
    requires d > 0.0 && a > d
    ensures a / d > 1.0
  {
  }

  /**
   * The balance after `months` monthly payments of `payment` on a loan that
   * stood at `opening`: each month's interest is the balance times the monthly
   * rate, the rest of the payment is principal, and the balance falls by that
   * principal.  Nothing stops it at zero.
   */
  function Balance(opening: real, payment: real, rate: real, months: nat): real
  {
    if months == 0 then opening
    else
      var before := Balance(opening, payment, rate, months - 1);
      before - (payment - before * rate)
  }

  /** The principal repaid over the first `months` payments. */
  function PrincipalPaid(opening: real, payment: real, rate: real, months: nat): real
  {
    if months == 0 then 0.0
    else PrincipalPaid(opening, payment, rate, months - 1) + (payment - Balance(opening, payment, rate, months - 1) * rate)
  }

  /** The interest paid over the first `months` payments. */
  function InterestPaid(opening: real, payment: real, rate: real, months: nat): real
  {
    if months == 0 then 0.0
    else InterestPaid(opening, payment, rate, months - 1) + Balance(opening, payment, rate, months - 1) * rate
  }

  /**
   * Every month's interest and principal add up to the payment, so over `months`
   * months they add up to `months` payments, and the balance has fallen by
   * exactly the principal paid.
   */
  lemma {:induction false} AmortizeTotals(opening: real, payment: real, rate: real, months: nat)
    ensures PrincipalPaid(opening, payment, rate, months) + InterestPaid(opening, payment, rate, months)
            == months as real * payment
    ensures Balance(opening, payment, rate, months) == opening - PrincipalPaid(opening, payment, rate, months)
  {
    if months > 0 {
      AmortizeTotals(opening, payment, rate, months - 1);
    }
  }

  /**
   * One month: interest plus principal is the payment, the balance falls by the
   * principal, and it falls strictly exactly when the payment exceeds the interest.
   */
  lemma MonthlyStep(opening: real, payment: real, rate: real, k: nat)
    ensures var principal := PrincipalPaid(opening, payment, rate, k + 1) - PrincipalPaid(opening, payment, rate, k);
            var interest := InterestPaid(opening, payment, rate, k + 1) - InterestPaid(opening, payment, rate, k);
            var before := Balance(opening, payment, rate, k);
      && principal + interest == payment
      && interest == before * rate
      && Balance(opening, payment, rate, k + 1) == before - principal
      && (Balance(opening, payment, rate, k + 1) < before <==> payment > before * rate)
  {
  }

  /**
   * One month of the source's loop on running figures that agree with the
   * first `k` months: the interest is the balance times the rate, the rest of
   * the payment is principal, and the updated figures agree with `k + 1` months.
   */
  lemma MonthStep(opening: real, payment: real, rate: real, k: nat, balance: real, principal: real, interest: real)
    requires balance == Balance(opening, payment, rate, k)
    requires principal == PrincipalPaid(opening, payment, rate, k)
    requires interest == InterestPaid(opening, payment, rate, k)
    ensures var monthlyInterest := balance * rate;
      && balance - (payment - monthlyInterest) == Balance(opening, payment, rate, k + 1)
      && principal + (payment - monthlyInterest) == PrincipalPaid(opening, payment, rate, k + 1)
      && interest + monthlyInterest == InterestPaid(opening, payment, rate, k + 1)
  {
  }

  /** Running `j` months and then `k` more is running `j + k` months. */
  lemma {:induction false} BalanceCompose(opening: real, payment: real, rate: real, j: nat, k: nat)
    ensures Balance(Balance(opening, payment, rate, j), payment, rate, k) == Balance(opening, payment, rate, j + k)
  {
    if k > 0 {
      BalanceCompose(opening, payment, rate, j, k - 1);
    }
  }

  /**
   * For a monthly rate of at least -100%: once the payment covers a month's
   * interest it covers every later month's interest as well, so from then on
   * the balance never rises.
   */
  lemma {:induction false} BalanceNeverRises(opening: real, payment: real, rate: real, k: nat)
    requires rate >= -1.0 && payment >= opening * rate
    ensures payment >= Balance(opening, payment, rate, k) * rate
    ensures Balance(opening, payment, rate, k + 1) <= Balance(opening, payment, rate, k)
  {
    if k > 0 {
      BalanceNeverRises(opening, payment, rate, k - 1);
      var before := Balance(opening, payment, rate, k - 1);
      MulMonotone(before * rate, payment, 1.0 + rate);
      assert Balance(opening, payment, rate, k) * rate == (1.0 + rate) * (before * rate) - payment * rate;
    }
  }

  /** Under the same condition, the balance after more months is never above the balance after fewer. */
  lemma {:induction false} BalanceNonIncreasing(opening: real, payment: real, rate: real, j: nat, k: nat)
    requires rate >= -1.0 && payment >= opening * rate
    requires j <= k
    ensures Balance(opening, payment, rate, k) <= Balance(opening, payment, rate, j)
  {
    if j < k {
      BalanceNonIncreasing(opening, payment, rate, j, k - 1);
      BalanceNeverRises(opening, payment, rate, k - 1);
    }
  }

  /**
   * The balance in closed form, multiplied through by the rate: the opening
   * balance grown by compound interest, less the payments grown the same way.
   */
  lemma {:induction false} ClosedForm(opening: real, payment: real, rate: real, k: nat)
    ensures Balance(opening, payment, rate, k) * rate
            == opening * Pow(1.0 + rate, k) * rate - payment * (Pow(1.0 + rate, k) - 1.0)
  {
    if k > 0 {
      ClosedForm(opening, payment, rate, k - 1);
    }
  }

  /** The annuity payment times (growth - 1) is the principal times the rate times the growth. */
  lemma PaymentEquation(principal: real, annualRatePercent: real, termYears: nat)
    requires termYears >= 1 && annualRatePercent != 0.0 && annualRatePercent != -2400.0
    ensures var r, g := MonthlyRate(annualRatePercent), Pow(1.0 + MonthlyRate(annualRatePercent), termYears * 12);
      && g != 1.0
      && MonthlyPayment(principal, annualRatePercent, termYears) * (g - 1.0) == principal * (r * g)
  {
    var r := MonthlyRate(annualRatePercent);
    var g := Pow(1.0 + r, termYears * 12);
    GrowthIsOne(annualRatePercent, termYears);
    DivTimes(principal * (r * g), g - 1.0);
  }

  lemma DivTimes(x: real, d: real)
    requires d != 0.0
    ensures (x / d) * d == x
  {
  }

  /**
   * Paying the annuity payment for the whole term leaves nothing owing: the
   * balance after `termYears * 12` months is exactly zero.
   */
  lemma PaidOffAtTerm(principal: real, annualRatePercent: real, termYears: nat)
    requires termYears >= 1 && annualRatePercent != 0.0 && annualRatePercent != -2400.0
    ensures Balance(principal, MonthlyPayment(principal, annualRatePercent, termYears),
                    MonthlyRate(annualRatePercent), termYears * 12) == 0.0
  {
    var r := MonthlyRate(annualRatePercent);
    var n := termYears * 12;
    var g := Pow(1.0 + r, n);
    var m := MonthlyPayment(principal, annualRatePercent, termYears);
    PaymentEquation(principal, annualRatePercent, termYears);
    ClosedForm(principal, m, r, n);
    var b := Balance(principal, m, r, n);
    assert b * r == principal * g * r - principal * (r * g);
    assert b * r == 0.0;
  }

  /** Compound growth is at most the term times the rate times the final growth. */
  lemma {:induction false} GrowthBound(r: real, n: nat)
    requires r >= 0.0
    ensures Pow(1.0 + r, n) - 1.0 <= n as real * r * Pow(1.0 + r, n)
  {
    if n > 0 {
      GrowthBound(r, n - 1);
      var g := Pow(1.0 + r, n - 1);
      PowAtLeastOne(1.0 + r, n - 1);
      assert Pow(1.0 + r, n) == (1.0 + r) * g;
      GrowthStep(g, r, (n - 1) as real);
    }
  }

  /** One more month of the growth bound, as an inequality between polynomials. */
  lemma GrowthStep(g: real, r: real, k: real)
    requires r >= 0.0 && g >= 1.0 && k >= 0.0
    requires g - 1.0 <= k * r * g
    ensures (1.0 + r) * g - 1.0 <= (k + 1.0) * r * ((1.0 + r) * g)
  {
    assert r * g >= 0.0;
    assert (1.0 + r) * g - 1.0 == (g - 1.0) + r * g;
    assert (g - 1.0) + r * g <= (k + 1.0) * (r * g);
    var x := (k + 1.0) * (r * g);
    assert x >= 0.0;
    assert x <= x * (1.0 + r);
    assert x * (1.0 + r) == (k + 1.0) * r * ((1.0 + r) * g);
  }

  /** Over the whole term the payments add up to at least the amount borrowed. */
  lemma PaymentsCoverPrincipal(principal: real, annualRatePercent: real, termYears: nat)
    requires annualRatePercent > 0.0 && termYears >= 1 && principal >= 0.0
    ensures MonthlyPayment(principal, annualRatePercent, termYears) * (termYears * 12) as real >= principal
  {
    var r := MonthlyRate(annualRatePercent);
    var n := termYears * 12;
    var g := Pow(1.0 + r, n);
    var m := MonthlyPayment(principal, annualRatePercent, termYears);
    PaymentEquation(principal, annualRatePercent, termYears);
    GrowthIsOne(annualRatePercent, termYears);
    GrowthBound(r, n);
    CoverStep(m, principal, r, g, n as real);
  }

  /** From m * (g - 1) == principal * r * g and g - 1 <= n * r * g it follows that m * n >= principal. */
  lemma CoverStep(m: real, principal: real, r: real, g: real, n: real)
    requires g > 1.0 && principal >= 0.0 && n >= 0.0
    requires m * (g - 1.0) == principal * (r * g)
    requires g - 1.0 <= n * r * g
    ensures m * n >= principal
  {
    var x := m * n;
    var d := g - 1.0;
    var e := m * d;
    assert x * d == n * e;
    assert n * e == n * (principal * (r * g));
    assert n * (principal * (r * g)) == principal * (n * r * g);
    MulMonotone(g - 1.0, n * r * g, principal);
    if x < principal {
      MulStrict(x, principal, d);
    }
  }

  lemma MulMonotone(x: real, y: real, c: real)
    requires x <= y && c >= 0.0
    ensures c * x <= c * y && x * c <= y * c
  {
  }

  lemma MulStrict(x: real, y: real, c: real)
    requires x < y && c > 0.0
    ensures x * c < y * c
  {
  }
}
