/**
 * The payroll deduction calculator: Social Security Fund (SSF) withholding, a
 * five-slab marginal income tax on the annualised taxable income, and the net
 * monthly, daily and weekly payouts, each rounded once when the breakdown is built.
 * Amounts are exact reals; `Math.round` is `JsNumber.Round`.
 */
module PayrollCalculator {
  import opened JsNumber

  /** A slab's width: a finite amount of income, or unbounded (`Infinity`). */
  datatype Limit = Finite(width: real) | Unbounded

  /** A tax slab: the width of income it taxes and its rate. */
  datatype TaxSlab = TaxSlab(limit: Limit, rate: real)

  const WorkingDaysPerMonth: real := 30.0
  const WeeksPerMonth: real := 4.0
  const EmployeeSSFRate: real := 0.11
  const EmployerSSFRate: real := 0.20
  const TopRate: real := 0.36

  /** Nepal's slabs as the calculator lists them: each entry is the width of its bracket. */
  const TaxSlabs: seq<TaxSlab> := [
    TaxSlab(Finite(500000.0), 0.01),
    TaxSlab(Finite(200000.0), 0.10),
    TaxSlab(Finite(300000.0), 0.20),
    TaxSlab(Finite(1000000.0), 0.30),
    TaxSlab(Unbounded, TopRate)
  ]

  /** The breakdown the calculator returns; every field but `monthlyGross` is rounded. */
  datatype PayrollDetails = PayrollDetails(
    monthlyGross: real,
    employeeSSF: int,
    employerSSF: int,
    annualTax: int,
    monthlyTax: int,
    netMonthlySalary: int,
    dailyPayout: int,
    weeklyPayout: int)

  /** `Math.min(taxRemaining, slab.limit)`: the part of the remaining income a slab takes. */
  function Portion(remaining: real, limit: Limit): (p: real)
    ensures p <= remaining
    ensures limit.Finite? ==> p <= limit.width
    ensures p == remaining || (limit.Finite? && p == limit.width)
  {
    match limit
    case Unbounded => remaining
    case Finite(w) => if remaining <= w then remaining else w
  }

  /** What a walk over the slabs produces: the tax, the income left over, and each slab's portion. */
  datatype Walked = Walked(tax: real, left: real, portions: seq<real>)

  /**
   * The slab walk: visit the slabs in order, stop as soon as nothing is left, and let
   * each slab take its portion of what remains at its own rate.
   */
  function Walk(slabs: seq<TaxSlab>, remaining: real): (w: Walked)
    ensures |w.portions| <= |slabs|
    decreases |slabs|
  {
    if |slabs| == 0 || remaining <= 0.0 then Walked(0.0, remaining, [])
    else
      var p := Portion(remaining, slabs[0].limit);
      var rest := Walk(slabs[1..], remaining - p);
      Walked(p * slabs[0].rate + rest.tax, rest.left, [p] + rest.portions)
  }

  /** Annual taxable income: the monthly gross less the employee's SSF share, times twelve. */
  function AnnualTaxable(g: real): real
  {
    (g - g * EmployeeSSFRate) * 12.0
  }

  /** The unrounded annual tax: the slab walk over the annual taxable income. */
  function AnnualTax(g: real): real
  {
    Walk(TaxSlabs, AnnualTaxable(g)).tax
  }

  /** The unrounded net monthly salary. */
  function NetMonthly(g: real): real
  {
    g - g * EmployeeSSFRate - AnnualTax(g) / 12.0
  }

  /** The breakdown of a monthly gross salary: raw values computed first, each rounded at the end. */
  function Payroll(g: real): PayrollDetails
  {
    var net := NetMonthly(g);
    PayrollDetails(
      g,
      Round(g * EmployeeSSFRate),
      Round(g * EmployerSSFRate),
      Round(AnnualTax(g)),
      Round(AnnualTax(g) / 12.0),
      Round(net),
      Round(net / WorkingDaysPerMonth),
      Round(net / WeeksPerMonth))
  }

  /**
   * The slab loop: visit the slabs in order, stop once the remaining income is used up,
   * and accumulate each slab's portion at its rate.
   */
  method SlabWalk(slabs: seq<TaxSlab>, annualTaxableIncome: real) returns (totalAnnualTax: real, taxRemaining: real)
    ensures totalAnnualTax == Walk(slabs, annualTaxableIncome).tax
    ensures taxRemaining == Walk(slabs, annualTaxableIncome).left
    ensures OpenEnded(slabs) && annualTaxableIncome >= 0.0 ==> taxRemaining == 0.0
    ensures annualTaxableIncome <= 0.0 ==> totalAnnualTax == 0.0 && taxRemaining == annualTaxableIncome
  {
    ghost var whole := Walk(slabs, annualTaxableIncome);
    taxRemaining := annualTaxableIncome;
    totalAnnualTax := 0.0;
    var i := 0;
    while i < |slabs|
      invariant 0 <= i <= |slabs|
      invariant totalAnnualTax + Walk(slabs[i..], taxRemaining).tax == whole.tax
      invariant Walk(slabs[i..], taxRemaining).left == whole.left
    {
      var slab := slabs[i];
      if taxRemaining <= 0.0 {
        break;
      }
      var taxableInThisSlab := Portion(taxRemaining, slab.limit);
      WalkStep(slabs, i, taxRemaining);
      totalAnnualTax := totalAnnualTax + taxableInThisSlab * slab.rate;
      taxRemaining := taxRemaining - taxableInThisSlab;
      i := i + 1;
    }
    WalkEnds(slabs, annualTaxableIncome);
  }

  /**
   * Where a walk ends: an open-ended table uses up a non-negative income, and an income
   * of zero or less is left as it is, untaxed.
   */
  lemma WalkEnds(slabs: seq<TaxSlab>, x: real)
    ensures OpenEnded(slabs) && x >= 0.0 ==> Walk(slabs, x).left == 0.0
    ensures x <= 0.0 ==> Walk(slabs, x).tax == 0.0 && Walk(slabs, x).left == x
  {
    if OpenEnded(slabs) && x >= 0.0 {
      WalkConsumesAll(slabs, x);
    }
  }

  /** One step of the walk from slab `i`: that slab's portion at its rate, then the walk from `i + 1`. */
  lemma WalkStep(slabs: seq<TaxSlab>, i: nat, remaining: real)
    requires i < |slabs| && remaining > 0.0
    ensures var p := Portion(remaining, slabs[i].limit);
      && Walk(slabs[i..], remaining).tax == p * slabs[i].rate + Walk(slabs[i + 1..], remaining - p).tax
      && Walk(slabs[i..], remaining).left == Walk(slabs[i + 1..], remaining - p).left
  {
    assert slabs[i..][1..] == slabs[i + 1..];
  }

  /** `PayrollCalculator.calculate`: the full breakdown for a monthly gross salary. */
  method Calculate(monthlyGrossSalary: real) returns (d: PayrollDetails)
    ensures d == Payroll(monthlyGrossSalary)
  {
    var employeeSSF := monthlyGrossSalary * EmployeeSSFRate;
    var employerSSF := monthlyGrossSalary * EmployerSSFRate;
    var monthlyTaxableIncome := monthlyGrossSalary - employeeSSF;
    var annualTaxableIncome := monthlyTaxableIncome * 12.0;
    var totalAnnualTax, _ := SlabWalk(TaxSlabs, annualTaxableIncome);
    var monthlyTax := totalAnnualTax / 12.0;
    var netMonthlySalary := monthlyGrossSalary - employeeSSF - monthlyTax;
    var dailyPayout := netMonthlySalary / WorkingDaysPerMonth;
    var weeklyPayout := netMonthlySalary / WeeksPerMonth;
    d := PayrollDetails(
      monthlyGrossSalary,
      Round(employeeSSF),
      Round(employerSSF),
      Round(totalAnnualTax),
      Round(monthlyTax),
      Round(netMonthlySalary),
      Round(dailyPayout),
      Round(weeklyPayout));
  }

  // ---------------------------------------------------------------------------
  // The slab table and the walk

  /** A table whose last slab is unbounded and whose other slabs have non-negative finite widths. */
  ghost predicate OpenEnded(slabs: seq<TaxSlab>)
  {
    && |slabs| >= 1
    && slabs[|slabs| - 1].limit.Unbounded?
    && forall i :: 0 <= i < |slabs| - 1 ==> slabs[i].limit.Finite? && slabs[i].limit.width >= 0.0
  }

  function Sum(xs: seq<real>): real
  {
    if xs == [] then 0.0 else xs[0] + Sum(xs[1..])
  }

  /** Each visited slab takes a non-negative portion no larger than its width. */
  ghost predicate WithinWidths(portions: seq<real>, slabs: seq<TaxSlab>)
    requires |portions| <= |slabs|
  {
    forall i :: 0 <= i < |portions| ==>
      0.0 <= portions[i] && (slabs[i].limit.Finite? ==> portions[i] <= slabs[i].limit.width)
  }

  lemma TaxSlabsOpenEnded()
    ensures OpenEnded(TaxSlabs)
  {
  }

  /**
   * Over an open-ended table, the walk of a non-negative income ends with nothing left,
   * each slab takes at most its width, and the portions add up to the income exactly.
   */
  lemma {:induction false} WalkConsumesAll(slabs: seq<TaxSlab>, x: real)
    requires OpenEnded(slabs) && x >= 0.0
    ensures Walk(slabs, x).left == 0.0
    ensures Sum(Walk(slabs, x).portions) == x
    ensures WithinWidths(Walk(slabs, x).portions, slabs)
  {
    var w := Walk(slabs, x);
    if x > 0.0 {
      var p := Portion(x, slabs[0].limit);
      var rest := Walk(slabs[1..], x - p);
      if |slabs| == 1 {
        assert p == x;
        assert rest == Walked(0.0, 0.0, []);
      } else {
        assert OpenEnded(slabs[1..]) by {
          assert slabs[1..][|slabs| - 2] == slabs[|slabs| - 1];
        }
        WalkConsumesAll(slabs[1..], x - p);
      }
      assert w.portions == [p] + rest.portions;
      assert ([p] + rest.portions)[1..] == rest.portions;
      forall i | 0 <= i < |w.portions|
        ensures 0.0 <= w.portions[i] && (slabs[i].limit.Finite? ==> w.portions[i] <= slabs[i].limit.width)
      {
        if i > 0 {
          assert w.portions[i] == rest.portions[i - 1] && slabs[i] == slabs[1..][i - 1];
        }
      }
    }
  }

  /**
   * Independent reference: the bracket table written with cumulative ceilings
   * (1% up to 500,000; 10% up to 700,000; 20% up to 1,000,000; 30% up to 2,000,000;
   * 36% above), as a closed form.
   */
  function BracketTax(x: real): real
  {
    if x <= 0.0 then 0.0
    else if x <= 500000.0 then 0.01 * x
    else if x <= 700000.0 then 5000.0 + 0.10 * (x - 500000.0)
    else if x <= 1000000.0 then 25000.0 + 0.20 * (x - 700000.0)
    else if x <= 2000000.0 then 85000.0 + 0.30 * (x - 1000000.0)
    else 385000.0 + 0.36 * (x - 2000000.0)
  }

  /** The walk over a finite first slab: all of `x` below its width, otherwise its width and the rest. */
  lemma WalkFiniteStep(slabs: seq<TaxSlab>, x: real)
    requires |slabs| >= 1 && slabs[0].limit.Finite? && x > 0.0
    ensures Walk(slabs, x).tax ==
      if x <= slabs[0].limit.width then x * slabs[0].rate
      else slabs[0].limit.width * slabs[0].rate + Walk(slabs[1..], x - slabs[0].limit.width).tax
  {
  }

  /** The slab walk over the calculator's table agrees with the closed-form bracket table. */
  lemma WalkMatchesBrackets(x: real)
    ensures Walk(TaxSlabs, x).tax == BracketTax(x)
  {
    if x > 0.0 {
      var s1 := TaxSlabs[1..];
      var s2 := s1[1..];
      var s3 := s2[1..];
      var s4 := s3[1..];
      assert s4 == [TaxSlab(Unbounded, TopRate)];
      WalkFiniteStep(TaxSlabs, x);
      if x > 500000.0 {
        WalkFiniteStep(s1, x - 500000.0);
        if x > 700000.0 {
          WalkFiniteStep(s2, x - 700000.0);
          if x > 1000000.0 {
            WalkFiniteStep(s3, x - 1000000.0);
            if x > 2000000.0 {
              assert Walk(s4, x - 2000000.0).tax == (x - 2000000.0) * TopRate;
            }
          }
        }
      }
    }
  }

  /** The bracket table never decreases: each bracket starts where the one below it ends. */
  lemma BracketTaxMonotone(x: real, y: real)
    requires x <= y
    ensures BracketTax(x) <= BracketTax(y)
  {
  }

  /** Between nothing and the top rate of the whole income; nothing at all for no income. */
  lemma BracketTaxBounds(x: real)
    ensures 0.0 <= BracketTax(x)
    ensures x >= 0.0 ==> BracketTax(x) <= 0.36 * x
    ensures x <= 0.0 ==> BracketTax(x) == 0.0
  {
  }

  // ---------------------------------------------------------------------------
  // Properties of the breakdown

  /** The annual tax is the marginal bracket sum of the annual taxable income, 12 * 0.89 * g. */
  lemma AnnualTaxIsBracketSum(g: real)
    ensures AnnualTaxable(g) == 10.68 * g
    ensures AnnualTax(g) == BracketTax(10.68 * g)
    ensures Payroll(g).annualTax == Round(BracketTax(10.68 * g))
  {
    WalkMatchesBrackets(AnnualTaxable(g));
  }

  /** A higher gross salary never gives a lower annual tax, raw or rounded. */
  lemma AnnualTaxMonotone(g1: real, g2: real)
    requires g1 <= g2
    ensures AnnualTax(g1) <= AnnualTax(g2)
    ensures Payroll(g1).annualTax <= Payroll(g2).annualTax
  {
    WalkMatchesBrackets(AnnualTaxable(g1));
    WalkMatchesBrackets(AnnualTaxable(g2));
    BracketTaxMonotone(AnnualTaxable(g1), AnnualTaxable(g2));
    RoundMonotone(AnnualTax(g1), AnnualTax(g2));
  }

  /** The annual tax is between zero and 36% of the annual taxable income; nothing for g <= 0. */
  lemma AnnualTaxBounds(g: real)
    ensures g >= 0.0 ==> 0.0 <= AnnualTax(g) <= 0.36 * AnnualTaxable(g)
    ensures g <= 0.0 ==> AnnualTax(g) == 0.0 && Payroll(g).annualTax == 0 && Payroll(g).monthlyTax == 0
  {
    WalkMatchesBrackets(AnnualTaxable(g));
    BracketTaxBounds(AnnualTaxable(g));
    RoundOfInteger(0);
  }

  /**
   * For a non-negative salary the walk over the annual taxable income consumes it all:
   * nothing left, each slab at most its width, portions adding up to the income.
   */
  lemma SlabWalkAccounting(g: real)
    requires g >= 0.0
    ensures Walk(TaxSlabs, AnnualTaxable(g)).left == 0.0
    ensures Sum(Walk(TaxSlabs, AnnualTaxable(g)).portions) == AnnualTaxable(g)
    ensures WithinWidths(Walk(TaxSlabs, AnnualTaxable(g)).portions, TaxSlabs)
  {
    TaxSlabsOpenEnded();
    WalkConsumesAll(TaxSlabs, AnnualTaxable(g));
  }

  /** Income that ends exactly on the first boundary is taxed by the first slab only. */
  lemma BoundaryExact()
    ensures Walk(TaxSlabs, 500000.0) == Walked(5000.0, 0.0, [500000.0])
  {
    assert Walk(TaxSlabs[1..], 0.0) == Walked(0.0, 0.0, []);
  }

  /** All deductions and payouts are non-negative and the payouts do not exceed the net salary. */
  lemma PayrollNonNegative(g: real)
    requires g >= 0.0
    ensures var d := Payroll(g);
      && 0 <= d.employeeSSF <= d.employerSSF
      && 0 <= d.monthlyTax <= d.annualTax
      && 0 <= d.dailyPayout <= d.weeklyPayout <= d.netMonthlySalary
  {
    AnnualTaxBounds(g);
    var net := NetMonthly(g);
    assert net >= 0.0;
    RoundMonotone(0.0, g * EmployeeSSFRate);
    RoundMonotone(g * EmployeeSSFRate, g * EmployerSSFRate);
    RoundMonotone(0.0, AnnualTax(g) / 12.0);
    RoundMonotone(AnnualTax(g) / 12.0, AnnualTax(g));
    RoundMonotone(0.0, net / 30.0);
    RoundMonotone(net / 30.0, net / 4.0);
    RoundMonotone(net / 4.0, net);
    RoundOfInteger(0);
  }

  /** Rounding `a - b - c` once differs from subtracting the rounded `b` and `c` by at most 1.5 up and less than 1.5 down. */
  lemma RoundingDrift(a: real, b: real, c: real)
    ensures -1.5 < Round(a - b - c) as real - (a - Round(b) as real - Round(c) as real) <= 1.5
  {
  }

  /**
   * Rounding once per field: the rounded net is within 1.5 (at most 1.5 above, less than 1.5 below) of the gross less the
   * rounded SSF and rounded monthly tax, because each of the three roundings moves a value up by at most 1/2 or down by less than 1/2.
   */
  lemma NetNearRoundedDifference(g: real)
    ensures var d := Payroll(g);
      -1.5 < d.netMonthlySalary as real - (g - d.employeeSSF as real - d.monthlyTax as real) <= 1.5
  {
    var t := AnnualTax(g) / 12.0;
    assert Payroll(g).netMonthlySalary == Round(g - g * EmployeeSSFRate - t);
    assert Payroll(g).employeeSSF == Round(g * EmployeeSSFRate);
    assert Payroll(g).monthlyTax == Round(t);
    RoundingDrift(g, g * EmployeeSSFRate, t);
  }

  /** `calculate(0)` is the all-zero breakdown: the loop stops before the first slab. */
  lemma PayrollOfZero()
    ensures Payroll(0.0) == PayrollDetails(0.0, 0, 0, 0, 0, 0, 0, 0)
  {
    assert Walk(TaxSlabs, 0.0).tax == 0.0;
    RoundOfInteger(0);
  }

  /** The seeded salary of 60,000: 5,000 + 14,080 of annual tax; 12,952.5 rounds up. */
  lemma PayrollOf60000()
    ensures Payroll(60000.0) == PayrollDetails(60000.0, 6600, 12000, 19080, 1590, 51810, 1727, 12953)
  {
    WalkMatchesBrackets(640800.0);
    assert AnnualTax(60000.0) == 19080.0;
    RoundOfInteger(6600);
    RoundOfInteger(12000);
    RoundOfInteger(19080);
    RoundOfInteger(1590);
    RoundOfInteger(51810);
    RoundOfInteger(1727);
    RoundUnique(12952.5, 12953);
  }

  /** A salary of 1,000,000 crosses every slab; each finite slab is filled to its width. */
  lemma PayrollOf1000000()
    ensures Walk(TaxSlabs, 10680000.0).portions == [500000.0, 200000.0, 300000.0, 1000000.0, 8680000.0]
    ensures Payroll(1000000.0) == PayrollDetails(1000000.0, 110000, 200000, 3509800, 292483, 597517, 19917, 149379)
  {
    var s1 := TaxSlabs[1..];
    var s2 := s1[1..];
    var s3 := s2[1..];
    var s4 := s3[1..];
    assert s4 == [TaxSlab(Unbounded, TopRate)];
    assert Walk(s4[1..], 0.0).portions == [];
    assert Walk(s4, 8680000.0).portions == [8680000.0];
    assert Walk(s3, 9680000.0).portions == [1000000.0, 8680000.0];
    assert Walk(s2, 9980000.0).portions == [300000.0, 1000000.0, 8680000.0];
    assert Walk(s1, 10180000.0).portions == [200000.0, 300000.0, 1000000.0, 8680000.0];
    WalkMatchesBrackets(10680000.0);
    assert AnnualTax(1000000.0) == 3509800.0;
    RoundOfInteger(110000);
    RoundOfInteger(200000);
    RoundOfInteger(3509800);
    RoundUnique(3509800.0 / 12.0, 292483);
    RoundUnique(NetMonthly(1000000.0), 597517);
    RoundUnique(NetMonthly(1000000.0) / 30.0, 19917);
    RoundUnique(NetMonthly(1000000.0) / 4.0, 149379);
  }

  /**
   * The payouts divide the unrounded net: at a gross of 51 the net is 44.9361, which
   * rounds to 45, and 45 / 30 would round to 2, while the daily payout is Round(1.49787) = 1.
   */
  lemma PayoutsUseUnroundedNet()
    ensures Payroll(51.0).netMonthlySalary == 45
    ensures Payroll(51.0).dailyPayout == 1
    ensures Round(Payroll(51.0).netMonthlySalary as real / WorkingDaysPerMonth) == 2
  {
    WalkMatchesBrackets(AnnualTaxable(51.0));
    assert NetMonthly(51.0) == 44.9361;
    RoundUnique(44.9361, 45);
    RoundUnique(44.9361 / 30.0, 1);
    RoundUnique(1.5, 2);
  }
}
