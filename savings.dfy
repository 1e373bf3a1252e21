/** The savings calculator: the contribution needed to reach a goal, the
    compound-growth projection of a savings balance with monthly
    contributions, and the input check of its console front end. Python
    floats are idealised as reals. */
module Savings {
  import opened Common

  /** The only failure the two formulas can raise. */
  datatype ArithError = ZeroDivision

  // ---------------------------------------------------------------------------
  // Small facts of real arithmetic, stated on plain parameters

  lemma QuotientTimes(a: real, m: real)
    requires m != 0.0
    ensures (a / m) * m == a
  {
  }

  lemma TimesQuotient(x: real, m: real)
    requires m != 0.0
    ensures (x * m) / m == x
  {
  }

  lemma ExactQuotient(x: real, z: real, m: real)
    requires m != 0.0 && x == z * m
    ensures x / m == z
  {
    TimesQuotient(z, m);
  }

  lemma NegativeQuotient(a: real, m: real)
    requires m != 0.0
    ensures a < 0.0 && m > 0.0 ==> a / m < 0.0
  {
  }

  // ---------------------------------------------------------------------------
  // Required contribution

  /** `calculate_required_contribution`: the shortfall spread evenly over the
      timeframe. `frequency_factor` is computed from the frequency and never
      used, so the frequency has no effect; a timeframe of 0 raises. */
  function RequiredContribution(balance: real, goal: real, frequency: string, months: int): (r: Result<real, ArithError>)
    ensures r.Err? <==> months == 0
    ensures r.Ok? ==> r.value * months as real == goal - balance
    ensures r.Ok? && months > 0 && balance > goal ==> r.value < 0.0
  {
    if months == 0 then Err(ZeroDivision)
    else
      var m := months as real;
      QuotientTimes(goal - balance, m);
      NegativeQuotient(goal - balance, m);
      Ok((goal - balance) / m)
  }

  /** The contribution frequency never changes the required contribution. */
  lemma FrequencyIgnored(balance: real, goal: real, f1: string, f2: string, months: int)
    ensures RequiredContribution(balance, goal, f1, months) == RequiredContribution(balance, goal, f2, months)
  {
  }

  // ---------------------------------------------------------------------------
  // Monthly projection

  /** `g ** n` for a whole exponent n >= 0. */
  function Pow(g: real, n: nat): real
  {
    if n == 0 then 1.0 else Pow(g, n - 1) * g
  }

  /** The balance after n months, each month growing by the factor g and
      then receiving the contribution c: the process the closed form of the
      projection sums up. */
  function Simulate(b: real, c: real, g: real, n: nat): real
  {
    if n == 0 then b else Simulate(b, c, g, n - 1) * g + c
  }

  /** Python's `g ** n` for a float g and an integral float n: for negative n
      it is 1 / g ** -n, and raises when g is 0. */
  function PowInt(g: real, n: int): (r: Result<real, ArithError>)
    ensures r.Err? <==> n < 0 && Pow(g, -n) == 0.0
    ensures n >= 0 ==> r == Ok(Pow(g, n))
    ensures r.Ok? && n < 0 ==> r.value * Pow(g, -n) == 1.0
  {
    if n >= 0 then Ok(Pow(g, n))
    else if Pow(g, -n) == 0.0 then Err(ZeroDivision)
    else
      QuotientTimes(1.0, Pow(g, -n));
      Ok(1.0 / Pow(g, -n))
  }

  lemma {:induction false} PowZero(g: real, n: nat)
    ensures Pow(g, n) == 0.0 <==> g == 0.0 && n > 0
  {
    if n > 0 {
      PowZero(g, n - 1);
      if g != 0.0 && Pow(g, n - 1) != 0.0 {
        NonZeroProduct(Pow(g, n - 1), g);
      }
    }
  }

  lemma NonZeroProduct(a: real, b: real)
    requires a != 0.0 && b != 0.0
    ensures a * b != 0.0
  {
  }

  /** The rate per month, `annual_return_rate / 12`. */
  function PeriodRate(rate: real): real
  {
    rate / 12.0
  }

  /** The monthly growth factor `1 + r`. */
  function Growth(rate: real): real
  {
    1.0 + PeriodRate(rate)
  }

  /** `calculate_investment_projection` with monthly contributions: the rate
      per period is r = rate / 12 and the exponent is the timeframe itself,
      FV = B (1 + r)^n + C ((1 + r)^n - 1) / r. A zero rate divides by zero,
      and so does a negative timeframe when 1 + r is 0. */
  function MonthlyProjection(balance: real, contribution: real, months: int, rate: real): (r: Result<real, ArithError>)
    ensures r.Err? <==> rate == 0.0 || (months < 0 && rate == -12.0)
    ensures r.Ok? && months >= 0 ==>
      r.value == balance * Pow(Growth(rate), months) + contribution * ((Pow(Growth(rate), months) - 1.0) / PeriodRate(rate))
  {
    var r := PeriodRate(rate);
    PowZero(Growth(rate), if months < 0 then -months else 0);
    match PowInt(Growth(rate), months)
    case Err(e) => Err(e)
    case Ok(growth) =>
      if r == 0.0 then Err(ZeroDivision)
      else Ok(balance * growth + contribution * ((growth - 1.0) / r))
  }

  lemma SplitStep(prev: real, b: real, c: real, g: real, p: real, an: real, pn: real, a: real)
    requires prev == b * p + c * an && pn == p * g && a == an * g + 1.0
    ensures prev * g + c == b * pn + c * a
  {
  }

  /** The month-by-month process is linear: the balance grows to b g^n and
      the contributions add c times the balance that a single unit paid
      monthly from nothing would reach. */
  lemma {:induction false} SimulateSplit(b: real, c: real, g: real, n: nat)
    ensures Simulate(b, c, g, n) == b * Pow(g, n) + c * Simulate(0.0, 1.0, g, n)
  {
    if n > 0 {
      SimulateSplit(b, c, g, n - 1);
      SplitStep(Simulate(b, c, g, n - 1), b, c, g, Pow(g, n - 1), Simulate(0.0, 1.0, g, n - 1),
                Pow(g, n), Simulate(0.0, 1.0, g, n));
    }
  }

  lemma AnnuityStep(an: real, p: real, g: real, r: real, a: real, pn: real)
    requires an * r == p - 1.0 && g == 1.0 + r && a == an * g + 1.0 && pn == p * g
    ensures a * r == pn - 1.0
  {
    assert a * r == an * r * g + r;
    assert an * r * g == (p - 1.0) * g;
  }

  /** The geometric sum 1 + g + ... + g^(n-1), times r = g - 1, is g^n - 1. */
  lemma {:induction false} AnnuityTimesRate(g: real, r: real, n: nat)
    requires g == 1.0 + r
    ensures Simulate(0.0, 1.0, g, n) * r == Pow(g, n) - 1.0
  {
    if n > 0 {
      AnnuityTimesRate(g, r, n - 1);
      AnnuityStep(Simulate(0.0, 1.0, g, n - 1), Pow(g, n - 1), g, r, Simulate(0.0, 1.0, g, n), Pow(g, n));
    }
  }

  lemma Substitute(s: real, b: real, c: real, pn: real, a: real, q: real)
    requires s == b * pn + c * a && a == q
    ensures s == b * pn + c * q
  {
  }

  lemma ClosedForm(b: real, c: real, r: real, g: real, n: nat)
    requires r != 0.0 && g == 1.0 + r
    ensures Simulate(b, c, g, n) == b * Pow(g, n) + c * ((Pow(g, n) - 1.0) / r)
  {
    SimulateSplit(b, c, g, n);
    AnnuityTimesRate(g, r, n);
    ExactQuotient(Pow(g, n) - 1.0, Simulate(0.0, 1.0, g, n), r);
    Substitute(Simulate(b, c, g, n), b, c, Pow(g, n), Simulate(0.0, 1.0, g, n), (Pow(g, n) - 1.0) / r);
  }

  /** The closed form sums the month-by-month process: for every non-zero
      rate and every timeframe, the formula equals growing the balance and
      adding the contribution once a month. */
  lemma ProjectionSimulates(balance: real, contribution: real, months: nat, rate: real)
    requires rate != 0.0
    ensures MonthlyProjection(balance, contribution, months, rate)
         == Ok(Simulate(balance, contribution, Growth(rate), months))
  {
    var g := Growth(rate);
    var res := MonthlyProjection(balance, contribution, months, rate);
    assert res.Ok?;
    assert res.value == balance * Pow(g, months) + contribution * ((Pow(g, months) - 1.0) / PeriodRate(rate));
    ClosedForm(balance, contribution, PeriodRate(rate), g, months);
    assert res.value == Simulate(balance, contribution, g, months);
  }

  lemma GrowthStep(prev: real, b: real, p: real, g: real, pn: real)
    requires prev == b * p && pn == p * g
    ensures prev * g + 0.0 == b * pn
  {
  }

  /** With nothing paid in, the month-by-month process is compound growth. */
  lemma {:induction false} SimulateGrowth(b: real, g: real, n: nat)
    ensures Simulate(b, 0.0, g, n) == b * Pow(g, n)
  {
    if n > 0 {
      SimulateGrowth(b, g, n - 1);
      GrowthStep(Simulate(b, 0.0, g, n - 1), b, Pow(g, n - 1), g, Pow(g, n));
    }
  }

  /** With no contribution the projection is plain compound growth. */
  lemma NoContribution(balance: real, months: nat, rate: real)
    requires rate != 0.0
    ensures MonthlyProjection(balance, 0.0, months, rate).Ok?
    ensures MonthlyProjection(balance, 0.0, months, rate).value == balance * Pow(Growth(rate), months)
  {
    var g := Growth(rate);
    var res := MonthlyProjection(balance, 0.0, months, rate);
    ProjectionSimulates(balance, 0.0, months, rate);
    assert res.Ok? && res.value == Simulate(balance, 0.0, g, months);
    SimulateGrowth(balance, g, months);
    assert res.value == balance * Pow(g, months);
  }

  /** Without growth, the month-by-month process adds n contributions. */
  lemma {:induction false} SimulateFlat(b: real, c: real, n: nat)
    ensures Simulate(b, c, 1.0, n) == b + n as real * c
  {
    if n > 0 {
      SimulateFlat(b, c, n - 1);
      assert (n - 1) as real * c + c == n as real * c;
    }
  }

  /** Paying the required contribution each month, with no growth, reaches
      the goal exactly at the end of the timeframe. */
  lemma RequiredReachesGoal(balance: real, goal: real, frequency: string, months: nat)
    requires months > 0
    ensures RequiredContribution(balance, goal, frequency, months).Ok?
    ensures Simulate(balance, RequiredContribution(balance, goal, frequency, months).value, 1.0, months) == goal
  {
    var v := RequiredContribution(balance, goal, frequency, months).value;
    SimulateFlat(balance, v, months);
    assert months as real * v == v * months as real;
  }

  // ---------------------------------------------------------------------------
  // Input check of the console loop

  datatype InputError = InvalidFrequency | NotPositive

  /** The checks of the console loop, on the frequency after `strip().lower()`:
      the frequency must be `monthly` or `weekly`, then no amount or rate may
      be negative and the timeframe must be at least one month. */
  function Validate(frequency: string, balance: real, goal: real, contribution: real, months: int, rate: real): (r: Option<InputError>)
    ensures r == None <==>
      (frequency == "monthly" || frequency == "weekly") &&
      balance >= 0.0 && goal >= 0.0 && contribution >= 0.0 && months > 0 && rate >= 0.0
    ensures r == Some(InvalidFrequency) <==> frequency != "monthly" && frequency != "weekly"
  {
    if frequency != "monthly" && frequency != "weekly" then Some(InvalidFrequency)
    else if balance < 0.0 || goal < 0.0 || contribution < 0.0 || months <= 0 || rate < 0.0 then Some(NotPositive)
    else None
  }

  /** Inputs that pass the check never make the required contribution fail. */
  lemma ValidatedRequired(frequency: string, balance: real, goal: real, contribution: real, months: int, rate: real)
    requires Validate(frequency, balance, goal, contribution, months, rate) == None
    ensures RequiredContribution(balance, goal, frequency, months).Ok?
  {
  }

  /** The check admits a zero return rate, and the projection then divides
      by zero: option 2 of the console loop raises outside its `try`. */
  lemma ZeroRateCrashes()
    ensures Validate("monthly", 100.0, 1000.0, 50.0, 12, 0.0) == None
    ensures MonthlyProjection(100.0, 50.0, 12, 0.0) == Err(ZeroDivision)
  {
  }

  /** The projection with the zero rate handled as the limit of the formula:
      no growth, so the balance plus n contributions. */
  function GuardedProjection(balance: real, contribution: real, months: int, rate: real): (r: Result<real, ArithError>)
    ensures rate != 0.0 ==> r == MonthlyProjection(balance, contribution, months, rate)
    ensures rate == 0.0 ==> r.Ok?
  {
    if rate == 0.0 then Ok(balance + months as real * contribution)
    else MonthlyProjection(balance, contribution, months, rate)
  }

  /** Every input that passes the check gets a projection, and it is the
      month-by-month balance, at every rate including 0. */
  lemma GuardedProjectionSimulates(frequency: string, balance: real, goal: real, contribution: real, months: int, rate: real)
    requires Validate(frequency, balance, goal, contribution, months, rate) == None
    ensures GuardedProjection(balance, contribution, months, rate)
         == Ok(Simulate(balance, contribution, Growth(rate), months))
  {
    if rate == 0.0 {
      SimulateFlat(balance, contribution, months);
    } else {
      ProjectionSimulates(balance, contribution, months, rate);
    }
  }
}
