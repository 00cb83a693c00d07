/**
 * The per-state teacher pension estimate: a switch on the two-letter state
 * code (any letter case) choosing a formula in years of service, scaled by
 * the average salary. Rates are exact decimals here; `calculatePension`
 * computes in binary floating point.
 */
module Pension {
  import opened Types
  import opened Strings

  /**
   * `calculatePension(state, yearsOfService, averageSalary)`, written out case
   * by case as `calculatePension` does. `CalculateFollowsPlan` ties it to
   * the plan table, about which the lemmas below are stated.
   */
  function CalculatePension(state: string, yearsOfService: real, averageSalary: real): (r: real) {
    var y := yearsOfService;
    var s := averageSalary;
    match Upper(state)
    case "AL" => y * 0.0165 * s
    case "AK" =>
      if y <= 20.0 then y * 0.02 * s
      else
        var first20 := 20.0 * 0.02 * s;
        var over20 := (y - 20.0) * 0.025 * s;
        first20 + over20
    case "AZ" =>
      if y < 20.0 then y * 0.021 * s
      else if y < 25.0 then y * 0.0215 * s
      else if y < 30.0 then y * 0.022 * s
      else y * 0.023 * s
    case "AR" => y * 0.0215 * s
    case "CA" => y * 0.02 * s
    case "CO" => y * 0.025 * s
    case "CT" => y * 0.02 * s
    case "DE" => y * 0.0185 * s
    case "FL" => y * 0.016 * s
    case "GA" => y * 0.02 * s
    case "HI" => y * 0.0175 * s
    case "ID" => y * 0.02 * s
    case "IL" => y * 0.022 * s
    case "IN" => y * 0.011 * s
    case "IA" => y * 0.02 * s
    case "KS" => y * 0.0185 * s
    case "KY" =>
      if y <= 10.0 then y * 0.017 * s
      else if y <= 20.0 then (10.0 * 0.017 + (y - 10.0) * 0.02) * s
      else if y <= 26.0 then (10.0 * 0.017 + 10.0 * 0.02 + (y - 20.0) * 0.023) * s
      else if y <= 30.0 then (10.0 * 0.017 + 10.0 * 0.02 + 6.0 * 0.023 + (y - 26.0) * 0.025) * s
      else (10.0 * 0.017 + 10.0 * 0.02 + 6.0 * 0.023 + 4.0 * 0.025 + (y - 30.0) * 0.03) * s
    case "LA" => y * 0.025 * s
    case "ME" => y * 0.02 * s
    case "MD" => y * 0.015 * s
    case "MA" => y * 0.025 * s
    case "MI" => y * 0.015 * s
    case "MN" => y * 0.019 * s
    case "MS" => y * 0.02 * s
    case "MO" => y * 0.025 * s
    case "MT" => y * 0.0167 * s
    case "NE" => y * 0.02 * s
    case "NV" => y * 0.0225 * s
    case "NH" => y * 0.0152 * s
    case "NJ" => y * 0.0167 * s
    case "NM" => y * 0.0235 * s
    case "NY" =>
      if y < 20.0 then y * 0.0167 * s
      else if y == 20.0 then y * 0.0175 * s
      else
        var first20 := 20.0 * 0.0175 * s;
        var over20 := (y - 20.0) * 0.02 * s;
        first20 + over20
    case "NC" => y * 0.0182 * s
    case "ND" => y * 0.02 * s
    case "OH" => y * 0.022 * s
    case "OK" => y * 0.02 * s
    case "OR" => y * 0.015 * s
    case "PA" => y * 0.02 * s
    case "RI" => y * 0.01 * s
    case "SC" => y * 0.0182 * s
    case "SD" => y * 0.0155 * s
    case "TN" => y * 0.01 * s
    case "TX" => y * 0.023 * s
    case "UT" => y * 0.015 * s
    case "VT" => y * 0.0167 * s
    case "VA" => y * 0.01 * s
    case "WA" => y * 0.02 * s
    case "WV" => y * 0.02 * s
    case "WI" => y * 0.016 * s
    case "WY" => y * 0.02 * s
    case _ => 0.0
  }

  /**
   * A pension formula in years of service, per unit of salary.
   * `Flat(rate)` pays `rate` for every year. `Graded(width, rate, rest)` pays
   * `rate` for each of the first `width` years and `rest` for the years beyond.
   * `Switch(at, below, from)` uses `below` for fewer than `at` years and `from`
   * otherwise, applied to all years.
   */
  datatype Formula =
    | Flat(rate: real)
    | Graded(width: real, bandRate: real, rest: Formula)
    | Switch(at: real, below: Formula, from: Formula)

  /** The pension per unit of salary after `years` years of service. */
  function Value(f: Formula, years: real): (r: real) {
    match f
    case Flat(r) => years * r
    case Graded(w, r, rest) => if years <= w then years * r else w * r + Value(rest, years - w)
    case Switch(at, below, from) => if years < at then Value(below, years) else Value(from, years)
  }

  /** 2% a year for the first 20 years, 2.5% for each year beyond. */
  const AlaskaPlan := Graded(20.0, 0.02, Flat(0.025))
  /** One rate for all years, chosen by bracket: 2.1% below 20, 2.15% below 25, 2.2% below 30, 2.3% from 30. */
  const ArizonaPlan := Switch(20.0, Flat(0.021), Switch(25.0, Flat(0.0215), Switch(30.0, Flat(0.022), Flat(0.023))))
  /** 1.7% for the first 10 years, 2% for the next 10, 2.3% for the next 6, 2.5% for the next 4, 3% beyond 30. */
  const KentuckyPlan := Graded(10.0, 0.017, Graded(10.0, 0.02, Graded(6.0, 0.023, Graded(4.0, 0.025, Flat(0.03)))))
  /** 1.67% a year below 20 years; from 20 on, 1.75% for the first 20 years and 2% beyond. */
  const NewYorkPlan := Switch(20.0, Flat(0.0167), Graded(20.0, 0.0175, Flat(0.02)))

  /** The published plan of a state, by upper-case code; `None` for a code without one. */
  function PlanOf(code: string): (plan: Option<Formula>) {
    match code
    case "AL" => Some(Flat(0.0165))
    case "AK" => Some(AlaskaPlan)
    case "AZ" => Some(ArizonaPlan)
    case "AR" => Some(Flat(0.0215))
    case "CA" => Some(Flat(0.02))
    case "CO" => Some(Flat(0.025))
    case "CT" => Some(Flat(0.02))
    case "DE" => Some(Flat(0.0185))
    case "FL" => Some(Flat(0.016))
    case "GA" => Some(Flat(0.02))
    case "HI" => Some(Flat(0.0175))
    case "ID" => Some(Flat(0.02))
    case "IL" => Some(Flat(0.022))
    case "IN" => Some(Flat(0.011))
    case "IA" => Some(Flat(0.02))
    case "KS" => Some(Flat(0.0185))
    case "KY" => Some(KentuckyPlan)
    case "LA" => Some(Flat(0.025))
    case "ME" => Some(Flat(0.02))
    case "MD" => Some(Flat(0.015))
    case "MA" => Some(Flat(0.025))
    case "MI" => Some(Flat(0.015))
    case "MN" => Some(Flat(0.019))
    case "MS" => Some(Flat(0.02))
    case "MO" => Some(Flat(0.025))
    case "MT" => Some(Flat(0.0167))
    case "NE" => Some(Flat(0.02))
    case "NV" => Some(Flat(0.0225))
    case "NH" => Some(Flat(0.0152))
    case "NJ" => Some(Flat(0.0167))
    case "NM" => Some(Flat(0.0235))
    case "NY" => Some(NewYorkPlan)
    case "NC" => Some(Flat(0.0182))
    case "ND" => Some(Flat(0.02))
    case "OH" => Some(Flat(0.022))
    case "OK" => Some(Flat(0.02))
    case "OR" => Some(Flat(0.015))
    case "PA" => Some(Flat(0.02))
    case "RI" => Some(Flat(0.01))
    case "SC" => Some(Flat(0.0182))
    case "SD" => Some(Flat(0.0155))
    case "TN" => Some(Flat(0.01))
    case "TX" => Some(Flat(0.023))
    case "UT" => Some(Flat(0.015))
    case "VT" => Some(Flat(0.0167))
    case "VA" => Some(Flat(0.01))
    case "WA" => Some(Flat(0.02))
    case "WV" => Some(Flat(0.02))
    case "WI" => Some(Flat(0.016))
    case "WY" => Some(Flat(0.02))
    case _ => None
  }

  /** The estimate the plan table gives: plan value times salary, 0 without a plan. */
  function PlanPension(state: string, years: real, salary: real): (r: real) {
    Scaled(PlanOf(Upper(state)), years, salary)
  }

  /** A plan's value times the salary; 0 without a plan. */
  function Scaled(plan: Option<Formula>, years: real, salary: real): (r: real) {
    match plan
    case None => 0.0
    case Some(f) => Value(f, years) * salary
  }

  /** The switch computes exactly what the plan table describes. */
  lemma CalculateFollowsPlan(state: string, years: real, salary: real)
    ensures CalculatePension(state, years, salary) == PlanPension(state, years, salary)
  {
    var code := Upper(state);
    if code == "AK" {
      AlaskaFollowsPlan(state, years, salary);
    } else if code == "AZ" {
      ArizonaFollowsPlan(state, years, salary);
    } else if code == "KY" {
      KentuckyFollowsPlan(state, years, salary);
    } else if code == "NY" {
      NewYorkFollowsPlan(state, years, salary);
    } else {
      FlatFollowsPlan(state, years, salary);
    }
  }

  lemma AlaskaFollowsPlan(state: string, y: real, s: real)
    requires Upper(state) == "AK"
    ensures CalculatePension(state, y, s) == PlanPension(state, y, s)
  {
    if y > 20.0 {
      assert Value(AlaskaPlan, y) == 20.0 * 0.02 + (y - 20.0) * 0.025;
      assert 20.0 * 0.02 * s + (y - 20.0) * 0.025 * s == (20.0 * 0.02 + (y - 20.0) * 0.025) * s;
    }
  }

  lemma ArizonaFollowsPlan(state: string, y: real, s: real)
    requires Upper(state) == "AZ"
    ensures CalculatePension(state, y, s) == PlanPension(state, y, s)
  {
    ArizonaValue(y);
  }

  lemma KentuckyFollowsPlan(state: string, y: real, s: real)
    requires Upper(state) == "KY"
    ensures CalculatePension(state, y, s) == PlanPension(state, y, s)
  {
    KentuckyValue(y);
  }

  lemma NewYorkFollowsPlan(state: string, y: real, s: real)
    requires Upper(state) == "NY"
    ensures CalculatePension(state, y, s) == PlanPension(state, y, s)
  {
    NewYorkValue(y);
    if y > 20.0 {
      assert 20.0 * 0.0175 * s + (y - 20.0) * 0.02 * s == (20.0 * 0.0175 + (y - 20.0) * 0.02) * s;
    }
  }

  lemma FlatFollowsPlan(state: string, y: real, s: real)
    requires Upper(state) != "AK" && Upper(state) != "AZ" && Upper(state) != "KY" && Upper(state) != "NY"
    ensures CalculatePension(state, y, s) == PlanPension(state, y, s)
  {
    var code := Upper(state);
    if |code| == 2 && code[0] <= 'M' {
      EarlyFlatFollowsPlan(state, y, s);
    } else if |code| == 2 {
      LateFlatFollowsPlan(state, y, s);
    }
  }

  lemma EarlyFlatFollowsPlan(state: string, y: real, s: real)
    requires Upper(state) != "AK" && Upper(state) != "AZ" && Upper(state) != "KY"
    requires |Upper(state)| == 2 && Upper(state)[0] <= 'M'
    ensures CalculatePension(state, y, s) == PlanPension(state, y, s)
  {
  }

  lemma LateFlatFollowsPlan(state: string, y: real, s: real)
    requires Upper(state) != "NY"
    requires |Upper(state)| == 2 && Upper(state)[0] > 'M'
    ensures CalculatePension(state, y, s) == PlanPension(state, y, s)
  {
  }

  /** The Arizona plan picks one rate by bracket and applies it to every year, as `calculatePension` does. */
  lemma ArizonaValue(y: real)
    ensures var v := Value(ArizonaPlan, y);
      if y < 20.0 then v == y * 0.021
      else if y < 25.0 then v == y * 0.0215
      else if y < 30.0 then v == y * 0.022
      else v == y * 0.023
  {
    var f3 := Switch(30.0, Flat(0.022), Flat(0.023));
    var f2 := Switch(25.0, Flat(0.0215), f3);
    if y >= 20.0 {
      assert Value(Switch(20.0, Flat(0.021), f2), y) == Value(f2, y);
      if y >= 25.0 {
        assert Value(f2, y) == Value(f3, y);
      }
    }
  }

  /** The New York plan: 1.67% a year below 20 years, 1.75% a year for the first 20 and 2% beyond from 20 on. */
  lemma NewYorkValue(y: real)
    ensures var v := Value(NewYorkPlan, y);
      if y < 20.0 then v == y * 0.0167
      else if y == 20.0 then v == y * 0.0175
      else v == 20.0 * 0.0175 + (y - 20.0) * 0.02
  {
    var graded := Graded(20.0, 0.0175, Flat(0.02));
    if y > 20.0 {
      assert Value(graded, y) == 20.0 * 0.0175 + Value(Flat(0.02), y - 20.0);
    }
  }

  /** The Kentucky plan unfolded bracket by bracket, as `calculatePension` writes it. */
  lemma KentuckyValue(y: real)
    ensures var v := Value(KentuckyPlan, y);
      if y <= 10.0 then v == y * 0.017
      else if y <= 20.0 then v == 10.0 * 0.017 + (y - 10.0) * 0.02
      else if y <= 26.0 then v == 10.0 * 0.017 + 10.0 * 0.02 + (y - 20.0) * 0.023
      else if y <= 30.0 then v == 10.0 * 0.017 + 10.0 * 0.02 + 6.0 * 0.023 + (y - 26.0) * 0.025
      else v == 10.0 * 0.017 + 10.0 * 0.02 + 6.0 * 0.023 + 4.0 * 0.025 + (y - 30.0) * 0.03
  {
    var f4 := Graded(4.0, 0.025, Flat(0.03));
    var f3 := Graded(6.0, 0.023, f4);
    var f2 := Graded(10.0, 0.02, f3);
    if y > 10.0 {
      assert Value(Graded(10.0, 0.017, f2), y) == 10.0 * 0.017 + Value(f2, y - 10.0);
      if y > 20.0 {
        assert Value(f2, y - 10.0) == 10.0 * 0.02 + Value(f3, y - 20.0);
        if y > 26.0 {
          assert Value(f3, y - 20.0) == 6.0 * 0.023 + Value(f4, y - 26.0);
          if y > 30.0 {
            assert Value(f4, y - 26.0) == 4.0 * 0.025 + Value(Flat(0.03), y - 30.0);
          }
        }
      }
    }
  }

  /**
   * A formula whose estimate never falls as service grows: no negative rate
   * or width, and a switch never drops below what the lower formula reached.
   */
  ghost predicate Rising(f: Formula) {
    match f
    case Flat(r) => r >= 0.0
    case Graded(w, r, rest) => w >= 0.0 && r >= 0.0 && Rising(rest)
    case Switch(at, below, from) => Rising(below) && Rising(from) && Value(below, at) <= Value(from, at)
  }

  /** No service, no pension. */
  lemma {:induction false} ValueAtZero(f: Formula)
    requires Rising(f)
    ensures Value(f, 0.0) == 0.0
  {
    match f
    case Flat(_) =>
    case Graded(_, _, rest) => ValueAtZero(rest);
    case Switch(at, below, from) =>
      if 0.0 < at { ValueAtZero(below); } else { ValueAtZero(from); }
  }

  /** A rising formula is monotone in years of service. */
  lemma {:induction false} ValueMonotone(f: Formula, y1: real, y2: real)
    requires Rising(f) && y1 <= y2
    ensures Value(f, y1) <= Value(f, y2)
  {
    match f
    case Flat(r) =>
      assert (y2 - y1) * r >= 0.0;
    case Graded(w, r, rest) =>
      if y2 <= w {
        assert (y2 - y1) * r >= 0.0;
      } else if y1 <= w {
        assert (w - y1) * r >= 0.0;
        ValueAtZero(rest);
        ValueMonotone(rest, 0.0, y2 - w);
      } else {
        ValueMonotone(rest, y1 - w, y2 - w);
      }
    case Switch(at, below, from) =>
      if y2 < at {
        ValueMonotone(below, y1, y2);
      } else if y1 < at {
        ValueMonotone(below, y1, at);
        ValueMonotone(from, at, y2);
      } else {
        ValueMonotone(from, y1, y2);
      }
  }

  /** A bracket-by-bracket formula with every rate at most `cap`: no switch, so no jump. */
  ghost predicate Capped(f: Formula, cap: real) {
    match f
    case Flat(r) => 0.0 <= r <= cap
    case Graded(w, r, rest) => w >= 0.0 && 0.0 <= r <= cap && Capped(rest, cap)
    case Switch(_, _, _) => false
  }

  lemma {:induction false} CappedIsRising(f: Formula, cap: real)
    requires Capped(f, cap)
    ensures Rising(f)
  {
    match f
    case Flat(_) =>
    case Graded(_, _, rest) => CappedIsRising(rest, cap);
  }

  /**
   * A capped graded formula has no jump at any bracket boundary: over any
   * stretch of service it grows by at most `cap` per year.
   */
  lemma {:induction false} CappedGrowth(f: Formula, cap: real, y1: real, y2: real)
    requires Capped(f, cap) && y1 <= y2
    ensures Value(f, y2) - Value(f, y1) <= cap * (y2 - y1)
  {
    match f
    case Flat(r) =>
      GrowthAtRate(y1, y2, r, cap);
    case Graded(w, r, rest) =>
      if y2 <= w {
        GrowthAtRate(y1, y2, r, cap);
      } else if y1 <= w {
        GrowthAtRate(y1, w, r, cap);
        CappedIsRising(rest, cap);
        ValueAtZero(rest);
        CappedGrowth(rest, cap, 0.0, y2 - w);
        SplitSpan(cap, y1, w, y2);
      } else {
        CappedGrowth(rest, cap, y1 - w, y2 - w);
      }
  }

  /** Growing at rate `r` from `a` to `b` gains at most `cap` per year when `r <= cap`. */
  lemma GrowthAtRate(a: real, b: real, r: real, cap: real)
    requires a <= b && r <= cap
    ensures b * r - a * r <= cap * (b - a)
  {
    assert b * r - a * r == (b - a) * r;
    NonNegProduct(b - a, cap - r);
  }

  lemma NonNegProduct(x: real, y: real)
    requires x >= 0.0 && y >= 0.0
    ensures x * y >= 0.0
  {
  }

  lemma SplitSpan(cap: real, a: real, m: real, b: real)
    ensures cap * (m - a) + cap * (b - m) == cap * (b - a)
  {
  }

  /** Every plan in the table is rising. */
  lemma PlansRise(code: string)
    ensures PlanOf(code).Some? ==> Rising(PlanOf(code).value)
  {
    ArizonaValue(20.0);
    ArizonaValue(25.0);
    ArizonaValue(30.0);
    NewYorkValue(20.0);
  }

  /** The plan table's estimate grows with years of service for a non-negative salary. */
  lemma PlanPensionMonotone(state: string, y1: real, y2: real, salary: real)
    requires y1 <= y2 && salary >= 0.0
    ensures PlanPension(state, y1, salary) <= PlanPension(state, y2, salary)
  {
    PlansRise(Upper(state));
    ScaledMonotone(PlanOf(Upper(state)), y1, y2, salary);
  }

  lemma ScaledMonotone(plan: Option<Formula>, y1: real, y2: real, salary: real)
    requires plan.Some? ==> Rising(plan.value)
    requires y1 <= y2 && salary >= 0.0
    ensures Scaled(plan, y1, salary) <= Scaled(plan, y2, salary)
  {
    if plan.Some? {
      ValueMonotone(plan.value, y1, y2);
      ScaleKeepsOrder(Value(plan.value, y1), Value(plan.value, y2), salary);
    }
  }

  lemma ScaleKeepsOrder(a: real, b: real, k: real)
    requires a <= b && k >= 0.0
    ensures a * k <= b * k
  {
    NonNegProduct(b - a, k);
  }

  /** With a non-negative salary, more years of service never lower the estimate. */
  lemma PensionMonotoneInYears(state: string, y1: real, y2: real, salary: real)
    requires y1 <= y2 && salary >= 0.0
    ensures CalculatePension(state, y1, salary) <= CalculatePension(state, y2, salary)
  {
    CalculateFollowsPlan(state, y1, salary);
    CalculateFollowsPlan(state, y2, salary);
    PlanPensionMonotone(state, y1, y2, salary);
  }

  /** For non-negative years and salary the estimate is non-negative. */
  lemma PensionNonNegative(state: string, years: real, salary: real)
    requires years >= 0.0 && salary >= 0.0
    ensures CalculatePension(state, years, salary) >= 0.0
  {
    PlanPensionAtZero(state, salary);
    CalculateFollowsPlan(state, 0.0, salary);
    PensionMonotoneInYears(state, 0.0, years, salary);
  }

  lemma PlanPensionAtZero(state: string, salary: real)
    ensures PlanPension(state, 0.0, salary) == 0.0
  {
    PlansRise(Upper(state));
    ScaledAtZero(PlanOf(Upper(state)), salary);
  }

  lemma ScaledAtZero(plan: Option<Formula>, salary: real)
    requires plan.Some? ==> Rising(plan.value)
    ensures Scaled(plan, 0.0, salary) == 0.0
  {
    if plan.Some? {
      ValueAtZero(plan.value);
    }
  }

  /** The estimate is the per-unit-salary estimate scaled by the salary. */
  lemma PensionLinearInSalary(state: string, years: real, salary: real)
    ensures CalculatePension(state, years, salary) == CalculatePension(state, years, 1.0) * salary
  {
    CalculateFollowsPlan(state, years, salary);
    CalculateFollowsPlan(state, years, 1.0);
    ScaledLinear(PlanOf(Upper(state)), years, salary);
  }

  lemma ScaledLinear(plan: Option<Formula>, years: real, salary: real)
    ensures Scaled(plan, years, salary) == Scaled(plan, years, 1.0) * salary
  {
  }

  /** The state code is read case-insensitively. */
  lemma StateCodeCaseInsensitive(state: string, years: real, salary: real)
    ensures CalculatePension(Lower(state), years, salary) == CalculatePension(state, years, salary)
    ensures CalculatePension(Upper(state), years, salary) == CalculatePension(state, years, salary)
  {
    UpperOfLower(state);
    UpperIdempotent(state);
  }

  /** A code with no plan, such as DC, gives 0 whatever the service and salary. */
  lemma UnknownStateIsZero(state: string, years: real, salary: real)
    requires PlanOf(Upper(state)) == None
    ensures CalculatePension(state, years, salary) == 0.0
  {
    CalculateFollowsPlan(state, years, salary);
  }

  /** DC has no entry in the switch and gets 0. */
  lemma DistrictOfColumbiaIsZero(years: real, salary: real)
    ensures CalculatePension("DC", years, salary) == 0.0
  {
    UpperFixed("DC");
  }

  /** Alaska's and Kentucky's graded plans have no jump: at most 2.5% and 3% of salary per extra year. */
  lemma GradedPlansHaveNoJump(y1: real, y2: real)
    requires y1 <= y2
    ensures Value(AlaskaPlan, y2) - Value(AlaskaPlan, y1) <= 0.025 * (y2 - y1)
    ensures Value(KentuckyPlan, y2) - Value(KentuckyPlan, y1) <= 0.03 * (y2 - y1)
  {
    CappedGrowth(AlaskaPlan, 0.025, y1, y2);
    CappedGrowth(KentuckyPlan, 0.03, y1, y2);
  }

  /** Alabama and California are flat: 1.65% and 2% of salary per year. */
  lemma FlatStateExamples(years: real, salary: real)
    ensures CalculatePension("AL", years, salary) == years * 0.0165 * salary
    ensures CalculatePension("ca", years, salary) == years * 0.02 * salary
  {
    UpperFixed("AL");
    assert Upper("ca") == "CA";
  }

  /** At exactly 20 years Alaska gives 40% of salary. */
  lemma AlaskaAtTwenty(salary: real)
    ensures CalculatePension("AK", 20.0, salary) == 0.4 * salary
  {
    UpperFixed("AK");
  }

  /** Kentucky at its bracket boundaries: 17%, 37%, 50.8% and 60.8% of salary. */
  lemma KentuckyBoundaries(salary: real)
    ensures CalculatePension("KY", 10.0, salary) == 0.17 * salary
    ensures CalculatePension("KY", 20.0, salary) == 0.37 * salary
    ensures CalculatePension("KY", 26.0, salary) == 0.508 * salary
    ensures CalculatePension("KY", 30.0, salary) == 0.608 * salary
  {
    UpperFixed("KY");
  }

  /** New York: 1.67% a year below 20, exactly 35% at 20, and 2% per year on top of 35% beyond. */
  lemma NewYorkAroundTwenty(years: real, salary: real)
    ensures years < 20.0 ==> CalculatePension("NY", years, salary) == years * 0.0167 * salary
    ensures CalculatePension("NY", 20.0, salary) == 0.35 * salary
    ensures years > 20.0 ==> CalculatePension("NY", years, salary) == 0.35 * salary + (years - 20.0) * 0.02 * salary
  {
    UpperFixed("NY");
  }

  /** Arizona applies the bracket's rate to all years: 19 years give 39.9% and 20 years 43% of salary. */
  lemma ArizonaStepsUp(salary: real)
    ensures CalculatePension("AZ", 19.0, salary) == 0.399 * salary
    ensures CalculatePension("AZ", 20.0, salary) == 0.43 * salary
  {
    UpperFixed("AZ");
  }

  /** The pension endpoint's income gap: the salary not replaced by the estimate. */
  function IncomeGap(state: string, years: real, salary: real): (r: real) {
    salary - CalculatePension(state, years, salary)
  }

  /** The gap never exceeds the salary, and equals it for a state without a plan. */
  lemma IncomeGapBounds(state: string, years: real, salary: real)
    requires years >= 0.0 && salary >= 0.0
    ensures IncomeGap(state, years, salary) <= salary
    ensures PlanOf(Upper(state)) == None ==> IncomeGap(state, years, salary) == salary
  {
    PensionNonNegative(state, years, salary);
    if PlanOf(Upper(state)) == None {
      UnknownStateIsZero(state, years, salary);
    }
  }
}
