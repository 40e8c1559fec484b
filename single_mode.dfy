/** The single-mode retirement projection: one household's IRA and regular
    savings drawn down year by year to cover living expenses and insurance
    that social security and rent do not. RMDs are taken from the IRA, or
    from savings once the IRA is empty, only at ages 73 to 92; a shortfall
    is drawn from the IRA first and then from savings, each draw capped at
    the balance; the drawdown is totalled and the first year of an empty
    IRA, of empty savings and of a shortfall are recorded. */
module SingleMode {
  import opened Basics

  // ---------------------------------------------------------------------
  // Inputs

  /** Every value the projection reads from the sidebar. Ages and years are
      whole numbers; a second-person age of 0 or less means there is no
      second person. */
  datatype Inputs = Inputs(
    startYear: int, years: nat, ageFirst: int, ageSecond: int,
    monthlyExpenses: real, insuranceAnnual: real, inflationRate: real, insuranceGrowth: real,
    ssFirst: real, ssSecond: real, ssCola: real, rentIncome: real, rentGrowth: real,
    incomeTaxRate: real, rmdTaxRate: real,
    iraStart: real, iraGrowthRate: real, savingsStart: real, savingsGrowthRate: real)

  // ---------------------------------------------------------------------
  // RMD divisors

  /** The divisor table, in two rows of ten keys; the first ends in the
      second. */
  function IrsDivisorsFrom73(): Table
  {
    Entry(73, 26.5,
    Entry(74, 25.5,
    Entry(75, 24.6,
    Entry(76, 23.7,
    Entry(77, 22.9,
    Entry(78, 22.0,
    Entry(79, 21.1,
    Entry(80, 20.2,
    Entry(81, 19.4,
    Entry(82, 18.5,
    IrsDivisorsFrom83()))))))))))
  }

  function IrsDivisorsFrom83(): Table
  {
    Entry(83, 17.7,
    Entry(84, 16.8,
    Entry(85, 16.0,
    Entry(86, 15.2,
    Entry(87, 14.4,
    Entry(88, 13.7,
    Entry(89, 12.9,
    Entry(90, 12.2,
    Entry(91, 11.5,
    Entry(92, 10.8,
    Empty))))))))))
  }

  lemma IrsDivisorsFrom83Shape()
    ensures Covers(IrsDivisorsFrom83(), 83, 92) && AtLeast(IrsDivisorsFrom83(), 10.8)
  {
  }

  lemma IrsDivisorsFrom73Shape()
    ensures Covers(IrsDivisorsFrom73(), 73, 92) && AtLeast(IrsDivisorsFrom73(), 10.8)
  {
    IrsDivisorsFrom83Shape();
  }

  /** The table's divisor for an age, `None` when the age is not a key:
      there is no default divisor. */
  function IrsDivisor(age: int): (d: Option<real>)
    ensures d.Some? <==> 73 <= age <= 92
    ensures d.Some? ==> d.value >= 10.8
  {
    IrsDivisorsFrom73Shape();
    LookupCovers(IrsDivisorsFrom73(), 73, 92, age);
    LookupAtLeast(IrsDivisorsFrom73(), 10.8, age);
    Lookup(IrsDivisorsFrom73(), age)
  }

  // ---------------------------------------------------------------------
  // One year of cash flow

  /** The year's living expenses, inflated. */
  function LivingExpenses(p: Inputs, i: nat): real
  {
    p.monthlyExpenses * 12.0 * Pow(GrowthFactor(p.inflationRate), i)
  }

  /** The year's insurance premium, grown at its own rate. */
  function InsurancePremium(p: Inputs, i: nat): real
  {
    p.insuranceAnnual * Pow(GrowthFactor(p.insuranceGrowth), i)
  }

  /** The second person's age in year `i`, absent when no second age was
      entered. */
  function SecondAge(p: Inputs, i: nat): Option<int>
  {
    if p.ageSecond > 0 then Some(p.ageSecond + i) else None
  }

  /** A monthly social security benefit, annualised and grown by the COLA
      for `i` years. */
  function AnnualBenefit(monthly: real, cola: real, i: nat): real
  {
    monthly * 12.0 * Pow(GrowthFactor(cola), i)
  }

  /** The second person's annual social security: counted only when a
      second age was entered. */
  function SecondSocialSecurity(p: Inputs, i: nat): real
  {
    if p.ageSecond > 0 then AnnualBenefit(p.ssSecond, p.ssCola, i) else 0.0
  }

  /** The first person's annual social security, grown by the COLA. */
  function FirstSocialSecurity(p: Inputs, i: nat): real
  {
    AnnualBenefit(p.ssFirst, p.ssCola, i)
  }

  /** The year's rental income, grown at its own rate. */
  function RentalIncome(p: Inputs, i: nat): real
  {
    p.rentIncome * 12.0 * Pow(GrowthFactor(p.rentGrowth), i)
  }

  /** The year's pre-tax income: both social security benefits and rent. */
  function EarnedIncome(p: Inputs, i: nat): real
  {
    FirstSocialSecurity(p, i) + SecondSocialSecurity(p, i) + RentalIncome(p, i)
  }

  /** A tax at `rate` on `amount`. */
  function TaxOn(amount: real, rate: real): real { amount * rate }

  /** The two RMDs of a year. */
  datatype Rmds = Rmds(fromIra: real, fromSavings: real)

  /** The RMDs for a year at `age`: from the IRA when it is positive, else
      from savings, and only at ages the divisor table has. */
  function TakeRmds(ira: real, savings: real, age: int): Rmds
  {
    var divisor := IrsDivisor(age);
    if divisor.None? then Rmds(0.0, 0.0)
    else if ira > 0.0 then Rmds(ira / divisor.value, 0.0)
    else Rmds(0.0, savings / divisor.value)
  }

  /** No RMD outside ages 73 to 92; inside, the IRA over the age's divisor
      when the IRA is positive, otherwise savings over it; never both; and
      never more than the balance it comes from. */
  lemma RmdRules(ira: real, savings: real, age: int)
    ensures var r := TakeRmds(ira, savings, age);
      (!(73 <= age <= 92) ==> r == Rmds(0.0, 0.0)) &&
      (73 <= age <= 92 && ira > 0.0 ==>
        r.fromIra == ira / IrsDivisor(age).value && 0.0 < r.fromIra < ira && r.fromSavings == 0.0) &&
      (73 <= age <= 92 && ira <= 0.0 ==>
        r.fromIra == 0.0 && r.fromSavings == savings / IrsDivisor(age).value) &&
      (ira >= 0.0 ==> 0.0 <= r.fromIra <= ira) &&
      (savings >= 0.0 ==> 0.0 <= r.fromSavings <= savings) &&
      (r.fromIra == 0.0 || r.fromSavings == 0.0)
  {
    if 73 <= age <= 92 {
      var d := IrsDivisor(age).value;
      if ira >= 0.0 {
        DivideShrinks(ira, d);
      }
      if savings >= 0.0 {
        DivideShrinks(savings, d);
      }
    }
  }

  /** What the year's cash does not cover: never negative, zero exactly
      when the cash covers the expenses. */
  function Shortfall(totalExpenses: real, cashAvailable: real): (s: real)
    ensures s >= 0.0 && s >= totalExpenses - cashAvailable
    ensures s == 0.0 <==> cashAvailable >= totalExpenses
    ensures s != 0.0 ==> s == totalExpenses - cashAvailable
  {
    Max(0.0, totalExpenses - cashAvailable)
  }

  /** The draw on the two accounts: the IRA first, then savings for what
      the IRA could not cover, each capped at its balance. */
  datatype Draw = Draw(fromIra: real, fromSavings: real, ira: real, savings: real)

  function DrawShortfall(ira: real, savings: real, shortfall: real): Draw
  {
    var iraUsed := Min(ira, shortfall);
    var remainingShortfall := shortfall - iraUsed;
    var savingsUsed := Min(savings, remainingShortfall);
    Draw(iraUsed, savingsUsed, ira - iraUsed, savings - savingsUsed)
  }

  /** The waterfall: the IRA pays what it can, savings what is left, each
      account ends at what it had less the shortfall it was asked to pay,
      or at zero; so no account ends negative, savings is only drawn once
      the IRA is empty, and the draws together are the shortfall exactly
      when savings is not negative and the two balances cover it. */
  lemma Waterfall(ira: real, savings: real, shortfall: real)
    ensures var d := DrawShortfall(ira, savings, shortfall);
      d.ira == Max(0.0, ira - shortfall) && d.ira == ira - d.fromIra &&
      d.fromIra == Min(ira, shortfall) &&
      d.fromSavings == Min(savings, shortfall - d.fromIra) &&
      d.savings == Max(0.0, savings - (shortfall - d.fromIra)) && d.savings == savings - d.fromSavings &&
      d.fromIra + d.fromSavings <= shortfall &&
      (d.fromSavings > 0.0 ==> d.ira == 0.0) &&
      (d.fromIra + d.fromSavings == shortfall <==> savings >= 0.0 && ira + savings >= shortfall) &&
      (ira >= 0.0 && shortfall >= 0.0 ==> d.fromIra >= 0.0) &&
      (savings >= 0.0 && shortfall >= 0.0 ==> d.fromSavings >= 0.0)
  {
  }

  /** Balances carried from one year to the next. */
  datatype Balances = Balances(ira: real, savings: real)

  /** One line of the results table, before display rounding. */
  datatype Row = Row(
    year: int, ageFirst: int, ageSecond: Option<int>,
    expenses: real, insurance: real, totalExpenses: real,
    earnedIncome: real, incomeTax: real, netIncome: real,
    rmdIra: real, rmdSavings: real, rmdTax: real, netRmd: real,
    totalCashAvailable: real, shortfall: real,
    iraUsed: real, savingsUsed: real, iraBalance: real, savingsBalance: real,
    totalUsed: real)

  datatype Year = Year(next: Balances, row: Row)

  /** Year `i` of the loop, from the balances entering it. */
  function Step(p: Inputs, i: nat, b: Balances): Year
  {
    var age := p.ageFirst + i;
    var expenses := LivingExpenses(p, i);
    var insurance := InsurancePremium(p, i);
    var totalExpenses := expenses + insurance;
    var earnedIncome := EarnedIncome(p, i);
    var incomeTax := TaxOn(earnedIncome, p.incomeTaxRate);
    var netIncome := earnedIncome - incomeTax;
    var rmds := TakeRmds(b.ira, b.savings, age);
    var iraLeft := b.ira - rmds.fromIra;
    var savingsLeft := b.savings - rmds.fromSavings;
    var ira := Grown(iraLeft, p.iraGrowthRate);
    var savings := Grown(savingsLeft, p.savingsGrowthRate);
    var totalRmd := rmds.fromIra + rmds.fromSavings;
    var rmdTax := TaxOn(totalRmd, p.rmdTaxRate);
    var netRmd := totalRmd - rmdTax;
    var cash := netIncome + netRmd;
    var shortfall := Shortfall(totalExpenses, cash);
    var d := DrawShortfall(ira, savings, shortfall);
    Year(
      Balances(d.ira, d.savings),
      Row(p.startYear + i, age, SecondAge(p, i),
          expenses, insurance, totalExpenses, earnedIncome, incomeTax, netIncome,
          rmds.fromIra, rmds.fromSavings, rmdTax, netRmd, cash, shortfall,
          d.fromIra, d.fromSavings, d.ira, d.savings, d.fromIra + d.fromSavings))
  }

  // ---------------------------------------------------------------------
  // The whole projection

  datatype Run = Run(state: Balances, rows: seq<Row>)

  /** `n` passes of a year function `f` from the balances `b0`: the balances
      after the last pass and one row per pass, in order. */
  function Iterate(f: (nat, Balances) -> Year, b0: Balances, n: nat): (r: Run)
    ensures |r.rows| == n
  {
    if n == 0 then
      Run(b0, [])
    else
      var prev := Iterate(f, b0, n - 1);
      var y := f(n - 1, prev.state);
      Run(y.next, prev.rows + [y.row])
  }

  /** Row `k` of any longer run is pass `k` from the balances entering it:
      later passes never rewrite earlier rows. */
  lemma {:induction false} IterateRowAt(f: (nat, Balances) -> Year, b0: Balances, n: nat, k: nat)
    requires k < n
    ensures Iterate(f, b0, n).rows[k] == f(k, Iterate(f, b0, k).state).row
  {
    if k < n - 1 {
      IterateRowAt(f, b0, n - 1, k);
    }
  }

  function Initial(p: Inputs): Balances { Balances(p.iraStart, p.savingsStart) }

  /** The script's year function for the values in the sidebar. */
  function YearOf(p: Inputs): (nat, Balances) -> Year
  {
    (i: nat, b: Balances) => Step(p, i, b)
  }

  /** The balances and table after the first `n` years. */
  function Project(p: Inputs, n: nat): Run { Iterate(YearOf(p), Initial(p), n) }

  /** The balances entering year `k`. */
  function StateAt(p: Inputs, k: nat): Balances { Project(p, k).state }

  /** The results table the script builds. */
  function Rows(p: Inputs): seq<Row> { Project(p, p.years).rows }

  /** Row `k` of any projection of more than `k` years is year `k`'s step
      from the balances entering year `k`. */
  lemma RowAt(p: Inputs, n: nat, k: nat)
    requires k < n
    ensures Project(p, n).rows[k] == Step(p, k, StateAt(p, k)).row
  {
    IterateRowAt(YearOf(p), Initial(p), n, k);
  }

  /** One more year appends that year's row and moves to its balances. */
  lemma ProjectNext(p: Inputs, n: nat)
    ensures Project(p, n + 1) ==
      Run(Step(p, n, StateAt(p, n)).next, Project(p, n).rows + [Step(p, n, StateAt(p, n)).row])
  {
  }

  lemma StateAfter(p: Inputs, k: nat)
    ensures StateAt(p, k + 1) == Step(p, k, StateAt(p, k)).next
  {
  }

  // ---------------------------------------------------------------------
  // Drawdown total and first-year markers

  /** The running total of the year's draws over the rows so far. */
  function Drawdown(rows: seq<Row>): real
  {
    if rows == [] then 0.0 else Drawdown(rows[..|rows| - 1]) + rows[|rows| - 1].totalUsed
  }

  /** One more row adds its draw to the running total. */
  lemma DrawdownAppend(rows: seq<Row>, row: Row)
    ensures Drawdown(rows + [row]) == Drawdown(rows) + row.totalUsed
  {
    assert (rows + [row])[..|rows|] == rows;
  }

  /** The draws of every year, in order. */
  function UsedPerYear(rows: seq<Row>): (used: seq<real>)
    ensures |used| == |rows|
    ensures forall k :: 0 <= k < |rows| ==> used[k] == rows[k].totalUsed
  {
    seq(|rows|, k requires 0 <= k < |rows| => rows[k].totalUsed)
  }

  /** Adding one more amount at the end of a list adds it to the sum. */
  lemma {:induction false} SumAppend(xs: seq<real>, x: real)
    ensures Sum(xs + [x]) == Sum(xs) + x
  {
    if xs == [] {
      assert [x][1..] == [];
    } else {
      assert (xs + [x])[1..] == xs[1..] + [x];
      SumAppend(xs[1..], x);
    }
  }

  /** The running total is the sum of every year's draw. */
  lemma {:induction false} DrawdownIsSumOfDraws(rows: seq<Row>)
    ensures Drawdown(rows) == Sum(UsedPerYear(rows))
  {
    if rows != [] {
      var init := rows[..|rows| - 1];
      DrawdownIsSumOfDraws(init);
      assert UsedPerYear(rows) == UsedPerYear(init) + [rows[|rows| - 1].totalUsed];
      SumAppend(UsedPerYear(init), rows[|rows| - 1].totalUsed);
    }
  }

  /** The drawdown never exceeds the shortfalls and is never negative when
      no year draws less than nothing. */
  lemma {:induction false} DrawdownBounds(rows: seq<Row>)
    requires forall k :: 0 <= k < |rows| ==> 0.0 <= rows[k].totalUsed <= rows[k].shortfall
    ensures 0.0 <= Drawdown(rows) <= Sum(Shortfalls(rows))
  {
    if rows != [] {
      var init := rows[..|rows| - 1];
      DrawdownBounds(init);
      assert Shortfalls(rows) == Shortfalls(init) + [rows[|rows| - 1].shortfall];
      SumAppend(Shortfalls(init), rows[|rows| - 1].shortfall);
    }
  }

  /** The shortfall of every year, in order. */
  function Shortfalls(rows: seq<Row>): (s: seq<real>)
    ensures |s| == |rows|
    ensures forall k :: 0 <= k < |rows| ==> s[k] == rows[k].shortfall
  {
    seq(|rows|, k requires 0 <= k < |rows| => rows[k].shortfall)
  }

  /** The three conditions the script records the first year of. */
  datatype Marker = IraDepleted | SavingsDepleted | FirstShortfall

  /** Row `r` meets the condition of marker `m`: an IRA or savings balance
      of at most 1 after the draw, or a positive shortfall. */
  predicate Hits(m: Marker, r: Row)
  {
    match m
    case IraDepleted => r.iraBalance <= 1.0
    case SavingsDepleted => r.savingsBalance <= 1.0
    case FirstShortfall => r.shortfall > 0.0
  }

  /** The marker as the loop leaves it after `rows`: kept once set,
      otherwise set to the latest row's year when that row meets it. */
  function MarkerAfter(rows: seq<Row>, m: Marker): Option<int>
  {
    if rows == [] then None
    else
      var before := MarkerAfter(rows[..|rows| - 1], m);
      if before.None? && Hits(m, rows[|rows| - 1]) then Some(rows[|rows| - 1].year) else before
  }

  /** One more row sets an unset marker to its year when it meets the
      condition, and otherwise leaves the marker as it was. */
  lemma MarkerAppend(rows: seq<Row>, row: Row, m: Marker)
    ensures MarkerAfter(rows + [row], m) ==
      if MarkerAfter(rows, m).None? && Hits(m, row) then Some(row.year) else MarkerAfter(rows, m)
  {
    assert (rows + [row])[..|rows|] == rows;
  }

  /** `marker` is the year of the first row meeting the condition of `m`,
      and is unset exactly when no row meets it. */
  ghost predicate IsFirstYear(rows: seq<Row>, m: Marker, marker: Option<int>)
  {
    (marker.None? <==> forall k :: 0 <= k < |rows| ==> !Hits(m, rows[k])) &&
    (marker.Some? ==>
      exists k :: 0 <= k < |rows| && Hits(m, rows[k]) && rows[k].year == marker.value
        && forall j :: 0 <= j < k ==> !Hits(m, rows[j]))
  }

  /** The loop's marker is the year of the first row meeting its condition. */
  lemma {:induction false} MarkerIsFirstYear(rows: seq<Row>, m: Marker)
    ensures IsFirstYear(rows, m, MarkerAfter(rows, m))
  {
    if rows != [] {
      var init := rows[..|rows| - 1];
      MarkerIsFirstYear(init, m);
      assert forall k :: 0 <= k < |init| ==> init[k] == rows[k];
      if MarkerAfter(init, m).None? && Hits(m, rows[|rows| - 1]) {
        assert Hits(m, rows[|rows| - 1]) && forall j :: 0 <= j < |rows| - 1 ==> !Hits(m, rows[j]);
      }
    }
  }

  /** Once set, a marker is never overwritten by later years. */
  lemma {:induction false} MarkerNeverOverwritten(rows: seq<Row>, later: seq<Row>, m: Marker)
    requires MarkerAfter(rows, m).Some?
    ensures MarkerAfter(rows + later, m) == MarkerAfter(rows, m)
  {
    if later != [] {
      var init := later[..|later| - 1];
      assert (rows + later)[..|rows + later| - 1] == rows + init;
      MarkerNeverOverwritten(rows, init, m);
    } else {
      assert rows + later == rows;
    }
  }

  // ---------------------------------------------------------------------
  // One year, from any balances

  /** The RMDs of a year: only at ages 73 to 92, from the IRA when it is
      positive, else from savings, never from both; the taxed RMD and the
      taxed income are what is left after their taxes. */
  lemma YearRmdAndTaxes(p: Inputs, i: nat, b: Balances)
    ensures var r := Step(p, i, b).row; var age := p.ageFirst + i;
      (!(73 <= age <= 92) ==> r.rmdIra == 0.0 && r.rmdSavings == 0.0) &&
      (73 <= age <= 92 && b.ira > 0.0 ==> r.rmdIra == b.ira / IrsDivisor(age).value && r.rmdSavings == 0.0) &&
      (73 <= age <= 92 && b.ira <= 0.0 ==> r.rmdIra == 0.0 && r.rmdSavings == b.savings / IrsDivisor(age).value) &&
      (r.rmdIra == 0.0 || r.rmdSavings == 0.0) &&
      r.incomeTax == TaxOn(r.earnedIncome, p.incomeTaxRate) &&
      r.netIncome + r.incomeTax == r.earnedIncome &&
      r.rmdTax == TaxOn(r.rmdIra + r.rmdSavings, p.rmdTaxRate) &&
      r.netRmd + r.rmdTax == r.rmdIra + r.rmdSavings &&
      r.netIncome == AfterTax(r.earnedIncome, p.incomeTaxRate) &&
      r.netRmd == AfterTax(r.rmdIra + r.rmdSavings, p.rmdTaxRate) &&
      r.totalCashAvailable == r.netIncome + r.netRmd
  {
    var r := Step(p, i, b).row;
    NetIsAfterTax(r.earnedIncome, p.incomeTaxRate);
    NetIsAfterTax(r.rmdIra + r.rmdSavings, p.rmdTaxRate);
  }

  /** The income of a year and the second person's age: both depend on
      the year alone, not on the balances. */
  lemma YearIncome(p: Inputs, i: nat, b: Balances)
    ensures Step(p, i, b).row.earnedIncome == EarnedIncome(p, i)
    ensures Step(p, i, b).row.ageSecond == SecondAge(p, i)
  {
  }

  /** After-tax amounts, as the other projection computes them. */
  lemma NetIsAfterTax(amount: real, rate: real)
    ensures amount - TaxOn(amount, rate) == AfterTax(amount, rate)
  {
  }

  /** The shortfall and the draw of a year: the shortfall is what the cash
      does not cover; the IRA is drawn first, savings only for the rest,
      never more than the shortfall in all, and exactly the shortfall when
      savings is not negative and the two balances together cover it. */
  lemma YearWaterfall(p: Inputs, i: nat, b: Balances)
    ensures var r := Step(p, i, b).row;
      var iraBefore := r.iraBalance + r.iraUsed;
      var savingsBefore := r.savingsBalance + r.savingsUsed;
      r.shortfall >= 0.0 &&
      (r.shortfall == 0.0 <==> r.totalCashAvailable >= r.totalExpenses) &&
      (r.shortfall != 0.0 ==> r.shortfall == r.totalExpenses - r.totalCashAvailable) &&
      r.iraUsed == Min(iraBefore, r.shortfall) &&
      r.savingsUsed == Min(savingsBefore, r.shortfall - r.iraUsed) &&
      (r.savingsUsed > 0.0 ==> r.iraBalance == 0.0) &&
      r.totalUsed == r.iraUsed + r.savingsUsed && r.totalUsed <= r.shortfall &&
      (r.totalUsed == r.shortfall <==> savingsBefore >= 0.0 && iraBefore + savingsBefore >= r.shortfall)
  {
  }

  /** The balances of a year: each account loses its RMD, grows at its
      rate and loses its draw, and that is what the next year starts with.
      Whatever was entered, neither balance is negative after the draw. */
  lemma YearBalances(p: Inputs, i: nat, b: Balances)
    ensures var y := Step(p, i, b); var r := y.row;
      r.iraBalance + r.iraUsed == Grown(b.ira - r.rmdIra, p.iraGrowthRate) &&
      r.savingsBalance + r.savingsUsed == Grown(b.savings - r.rmdSavings, p.savingsGrowthRate) &&
      y.next == Balances(r.iraBalance, r.savingsBalance) &&
      r.iraBalance >= 0.0 && r.savingsBalance >= 0.0
  {
  }

  /** From non-negative balances and growth rates of at least -100%, the
      RMDs and both draws are non-negative. */
  lemma YearDrawsNonnegative(p: Inputs, i: nat, b: Balances)
    requires b.ira >= 0.0 && b.savings >= 0.0
    requires p.iraGrowthRate >= -1.0 && p.savingsGrowthRate >= -1.0
    ensures var r := Step(p, i, b).row;
      r.rmdIra >= 0.0 && r.rmdSavings >= 0.0 &&
      r.iraUsed >= 0.0 && r.savingsUsed >= 0.0 && 0.0 <= r.totalUsed <= r.shortfall
  {
    var rmds := TakeRmds(b.ira, b.savings, p.ageFirst + i);
    RmdRules(b.ira, b.savings, p.ageFirst + i);
    GrownNonnegative(b.ira - rmds.fromIra, p.iraGrowthRate);
    GrownNonnegative(b.savings - rmds.fromSavings, p.savingsGrowthRate);
    Waterfall(Grown(b.ira - rmds.fromIra, p.iraGrowthRate), Grown(b.savings - rmds.fromSavings, p.savingsGrowthRate),
      Step(p, i, b).row.shortfall);
  }

  // ---------------------------------------------------------------------
  // Every year of the table

  /** The table has one row per year, the year counting from the start
      year and each age from its starting age; the second age is absent in
      every row when none was entered. */
  lemma RowsShape(p: Inputs, k: nat)
    requires k < |Rows(p)|
    ensures |Rows(p)| == p.years
    ensures Rows(p)[k].year == p.startYear + k && Rows(p)[k].ageFirst == p.ageFirst + k
    ensures Rows(p)[k].ageSecond == (if p.ageSecond > 0 then Some(p.ageSecond + k) else None)
  {
    RowAt(p, p.years, k);
  }

  /** Without a second age, no row shows a second person and the income is
      the first person's social security and rent alone; with one, the
      second age counts up from it and the second benefit is added. */
  lemma SecondPersonRule(p: Inputs, k: nat)
    requires k < |Rows(p)|
    ensures p.ageSecond <= 0 ==>
      Rows(p)[k].ageSecond.None? && Rows(p)[k].earnedIncome == FirstSocialSecurity(p, k) + RentalIncome(p, k)
    ensures p.ageSecond > 0 ==>
      Rows(p)[k].ageSecond == Some(p.ageSecond + k) && Rows(p)[k].ageSecond.value > k &&
      Rows(p)[k].earnedIncome ==
        FirstSocialSecurity(p, k) + AnnualBenefit(p.ssSecond, p.ssCola, k) + RentalIncome(p, k)
  {
    RowAt(p, p.years, k);
    YearIncome(p, k, StateAt(p, k));
  }

  /** Whatever was entered, neither balance is negative after any year's
      draw, so none is negative entering any year after the first. */
  lemma BalancesNeverNegative(p: Inputs, k: nat)
    ensures k < |Rows(p)| ==> Rows(p)[k].iraBalance >= 0.0 && Rows(p)[k].savingsBalance >= 0.0
    ensures k > 0 || (p.iraStart >= 0.0 && p.savingsStart >= 0.0) ==>
      StateAt(p, k).ira >= 0.0 && StateAt(p, k).savings >= 0.0
  {
    if k < |Rows(p)| {
      RowAt(p, p.years, k);
      YearBalances(p, k, StateAt(p, k));
    }
    if k > 0 {
      StateAfter(p, k - 1);
      YearBalances(p, k - 1, StateAt(p, k - 1));
    }
  }

  /** The RMD and tax rules hold in every row, from the balances entering
      that year. */
  lemma RowRmdAndTaxes(p: Inputs, k: nat)
    requires k < |Rows(p)|
    ensures var r := Rows(p)[k]; var b := StateAt(p, k); var age := p.ageFirst + k;
      (!(73 <= age <= 92) ==> r.rmdIra == 0.0 && r.rmdSavings == 0.0) &&
      (73 <= age <= 92 && b.ira > 0.0 ==> r.rmdIra == b.ira / IrsDivisor(age).value && r.rmdSavings == 0.0) &&
      (73 <= age <= 92 && b.ira <= 0.0 ==> r.rmdIra == 0.0 && r.rmdSavings == b.savings / IrsDivisor(age).value) &&
      (r.rmdIra == 0.0 || r.rmdSavings == 0.0) &&
      r.incomeTax == TaxOn(r.earnedIncome, p.incomeTaxRate) &&
      r.netIncome + r.incomeTax == r.earnedIncome &&
      r.rmdTax == TaxOn(r.rmdIra + r.rmdSavings, p.rmdTaxRate) &&
      r.netRmd + r.rmdTax == r.rmdIra + r.rmdSavings &&
      r.netIncome == AfterTax(r.earnedIncome, p.incomeTaxRate) &&
      r.netRmd == AfterTax(r.rmdIra + r.rmdSavings, p.rmdTaxRate)
  {
    RowAt(p, p.years, k);
    YearRmdAndTaxes(p, k, StateAt(p, k));
  }

  /** The shortfall and waterfall rules hold in every row, on the grown
      balances before the draw. */
  lemma RowWaterfall(p: Inputs, k: nat)
    requires k < |Rows(p)|
    ensures var r := Rows(p)[k];
      var iraBefore := r.iraBalance + r.iraUsed;
      var savingsBefore := r.savingsBalance + r.savingsUsed;
      r.shortfall >= 0.0 &&
      (r.shortfall == 0.0 <==> r.totalCashAvailable >= r.totalExpenses) &&
      (r.shortfall != 0.0 ==> r.shortfall == r.totalExpenses - r.totalCashAvailable) &&
      r.iraUsed == Min(iraBefore, r.shortfall) &&
      r.savingsUsed == Min(savingsBefore, r.shortfall - r.iraUsed) &&
      (r.savingsUsed > 0.0 ==> r.iraBalance == 0.0) &&
      r.totalUsed == r.iraUsed + r.savingsUsed && r.totalUsed <= r.shortfall &&
      (r.totalUsed == r.shortfall <==> savingsBefore >= 0.0 && iraBefore + savingsBefore >= r.shortfall)
  {
    RowAt(p, p.years, k);
    YearWaterfall(p, k, StateAt(p, k));
  }

  /** From non-negative starting balances and growth rates of at least
      -100%, every draw is non-negative, so the total drawdown lies between
      zero and the sum of the shortfalls. */
  lemma DrawdownWithinShortfalls(p: Inputs)
    requires p.iraStart >= 0.0 && p.savingsStart >= 0.0
    requires p.iraGrowthRate >= -1.0 && p.savingsGrowthRate >= -1.0
    ensures 0.0 <= Drawdown(Rows(p)) <= Sum(Shortfalls(Rows(p)))
  {
    forall k | 0 <= k < |Rows(p)|
      ensures 0.0 <= Rows(p)[k].totalUsed <= Rows(p)[k].shortfall
    {
      RowAt(p, p.years, k);
      BalancesNeverNegative(p, k);
      YearDrawsNonnegative(p, k, StateAt(p, k));
    }
    DrawdownBounds(Rows(p));
  }

  // ---------------------------------------------------------------------
  // The simulation loop

  /** The script's RMD block: both RMDs, taken out of their accounts. */
  method WithdrawRmds(ira: real, savings: real, age: int)
    returns (rmdIra: real, rmdSavings: real, iraLeft: real, savingsLeft: real)
    ensures Rmds(rmdIra, rmdSavings) == TakeRmds(ira, savings, age)
    ensures iraLeft == ira - rmdIra && savingsLeft == savings - rmdSavings
  {
    var divisor := IrsDivisor(age);
    rmdIra := if divisor.Some? && ira > 0.0 then ira / divisor.value else 0.0;
    rmdSavings := if ira > 0.0 then 0.0 else if divisor.Some? then savings / divisor.value else 0.0;
    iraLeft := ira - rmdIra;
    savingsLeft := savings - rmdSavings;
  }

  /** The script's waterfall: the shortfall drawn from the IRA first, then
      from savings, each capped at its balance. */
  method DrawFromAccounts(ira0: real, savings0: real, shortfall: real)
    returns (iraUsed: real, savingsUsed: real, ira: real, savings: real)
    ensures Draw(iraUsed, savingsUsed, ira, savings) == DrawShortfall(ira0, savings0, shortfall)
  {
    ira, savings := ira0, savings0;
    iraUsed := Min(ira, shortfall);
    ira := ira - iraUsed;
    var remainingShortfall := shortfall - iraUsed;
    savingsUsed := Min(savings, remainingShortfall);
    savings := savings - savingsUsed;
  }

  /** One pass of the script's loop: it computes the year function's year
      for the balances it is given. */
  method SimulateYear(p: Inputs, i: nat, ira0: real, savings0: real)
    returns (ira: real, savings: real, row: Row)
    ensures Step(p, i, Balances(ira0, savings0)) == Year(Balances(ira, savings), row)
    ensures row.year == p.startYear + i
    ensures row.iraBalance == ira && row.savingsBalance == savings
  {
    var year := p.startYear + i;
    var age := p.ageFirst + i;
    var age2 := if p.ageSecond > 0 then Some(p.ageSecond + i) else None;
    var expenses := LivingExpenses(p, i);
    var insurance := InsurancePremium(p, i);
    var totalExpenses := expenses + insurance;

    var ssS := FirstSocialSecurity(p, i);
    var ssJ := SecondSocialSecurity(p, i);
    var rent := RentalIncome(p, i);
    var earnedIncome := ssS + ssJ + rent;
    var incomeTax := TaxOn(earnedIncome, p.incomeTaxRate);
    var netIncome := earnedIncome - incomeTax;

    var rmdIra, rmdSavings;
    rmdIra, rmdSavings, ira, savings := WithdrawRmds(ira0, savings0, age);

    var iraGrowthAmt := GrowthOn(ira, p.iraGrowthRate);
    var savingsGrowthAmt := GrowthOn(savings, p.savingsGrowthRate);
    ira := ira + iraGrowthAmt;
    savings := savings + savingsGrowthAmt;

    var totalRmd := rmdIra + rmdSavings;
    var rmdTax := TaxOn(totalRmd, p.rmdTaxRate);
    var netRmd := totalRmd - rmdTax;

    var totalCashAvailable := netIncome + netRmd;
    var shortfall := Max(0.0, totalExpenses - totalCashAvailable);

    var iraUsed, savingsUsed;
    iraUsed, savingsUsed, ira, savings := DrawFromAccounts(ira, savings, shortfall);
    var totalUsed := iraUsed + savingsUsed;

    row := Row(year, age, age2, expenses, insurance, totalExpenses, earnedIncome, incomeTax, netIncome,
               rmdIra, rmdSavings, rmdTax, netRmd, totalCashAvailable, shortfall,
               iraUsed, savingsUsed, ira, savings, totalUsed);
  }

  /** The simulation loop of the script: the results table, the total
      drawdown and the three first-year markers. */
  method Simulate(p: Inputs)
    returns (results: seq<Row>, totalDrawdown: real,
             iraDepletedYear: Option<int>, savingsDepletedYear: Option<int>, firstShortfallYear: Option<int>)
    ensures results == Rows(p)
    ensures totalDrawdown == Drawdown(results) == Sum(UsedPerYear(results))
    ensures iraDepletedYear == MarkerAfter(results, IraDepleted)
    ensures savingsDepletedYear == MarkerAfter(results, SavingsDepleted)
    ensures firstShortfallYear == MarkerAfter(results, FirstShortfall)
    ensures IsFirstYear(results, IraDepleted, iraDepletedYear)
    ensures IsFirstYear(results, SavingsDepleted, savingsDepletedYear)
    ensures IsFirstYear(results, FirstShortfall, firstShortfallYear)
  {
    var ira := p.iraStart;
    var savings := p.savingsStart;
    results := [];
    iraDepletedYear := None;
    savingsDepletedYear := None;
    firstShortfallYear := None;
    totalDrawdown := 0.0;
    for i := 0 to p.years
      invariant Project(p, i) == Run(Balances(ira, savings), results)
      invariant totalDrawdown == Drawdown(results)
      invariant iraDepletedYear == MarkerAfter(results, IraDepleted)
      invariant savingsDepletedYear == MarkerAfter(results, SavingsDepleted)
      invariant firstShortfallYear == MarkerAfter(results, FirstShortfall)
    {
      var year := p.startYear + i;
      var row;
      ProjectNext(p, i);
      ira, savings, row := SimulateYear(p, i, ira, savings);
      DrawdownAppend(results, row);
      MarkerAppend(results, row, IraDepleted);
      MarkerAppend(results, row, SavingsDepleted);
      MarkerAppend(results, row, FirstShortfall);
      totalDrawdown := totalDrawdown + row.totalUsed;

      if iraDepletedYear.None? && ira <= 1.0 {
        iraDepletedYear := Some(year);
      }
      if savingsDepletedYear.None? && savings <= 1.0 {
        savingsDepletedYear := Some(year);
      }
      if firstShortfallYear.None? && row.shortfall > 0.0 {
        firstShortfallYear := Some(year);
      }
      results := results + [row];
    }
    DrawdownIsSumOfDraws(results);
    MarkerIsFirstYear(results, IraDepleted);
    MarkerIsFirstYear(results, SavingsDepleted);
    MarkerIsFirstYear(results, FirstShortfall);
  }
}
