/** The all-ages retirement projection: a household's monthly income and
    expenses, its IRA, savings, home and debts, projected year by year with
    required minimum distributions (RMDs) taken from the IRA, a draw on the
    combined IRA-plus-savings balance, and net worth.

    Behaviour kept exactly as the script has it:
    - the IRA is grown once on its own and then again inside the combined
      balance, so it compounds twice a year;
    - an RMD larger than the year's need, and any income surplus, are not
      deposited anywhere;
    - liabilities never change from one year to the next;
    - every age that is not a whole number from 25 to 92 gets divisor 10.2. */
module AllAges {
  import opened Basics

  /** First calendar year of the projection. */
  const START_YEAR: int := 2025

  // ---------------------------------------------------------------------
  // Age groups

  datatype AgeGroup = Ages25To55 | Ages56To69 | Ages70Plus

  /** The group preselected in the age tab: from the saved age when saved
      inputs are in use and hold an age, otherwise "25-55". Saved ages
      outside both closed ranges 25..55 and 56..69 fall to "70+". */
  function DefaultAgeGroup(useSaved: bool, savedAge: Option<real>): (g: AgeGroup)
    ensures !(useSaved && savedAge.Some?) ==> g == Ages25To55
    ensures useSaved && savedAge.Some? ==>
      (g == Ages25To55 <==> 25.0 <= savedAge.value <= 55.0) &&
      (g == Ages56To69 <==> 56.0 <= savedAge.value <= 69.0)
  {
    if useSaved && savedAge.Some? then
      var a := savedAge.value;
      if 25.0 <= a <= 55.0 then Ages25To55
      else if 56.0 <= a <= 69.0 then Ages56To69
      else Ages70Plus
    else
      Ages25To55
  }

  /** The lowest age the age field accepts once the group is chosen. */
  function GroupMinimumAge(g: AgeGroup): int
  {
    match g
    case Ages25To55 => 25
    case Ages56To69 => 56
    case Ages70Plus => 70
  }

  /** The age the age field starts with once the group is chosen. */
  function GroupDefaultAge(g: AgeGroup): int
  {
    match g
    case Ages25To55 => 40
    case Ages56To69 => 68
    case Ages70Plus => 76
  }

  /** A saved whole age of at least 25 lands in the highest group whose
      minimum age it reaches, so the age field will accept it; and a group's
      own minimum and default ages are classified back into that group. */
  lemma WholeAgeClassification(a: int, h: AgeGroup)
    requires a >= 25
    ensures GroupMinimumAge(DefaultAgeGroup(true, Some(a as real))) <= a
    ensures GroupMinimumAge(h) <= a ==>
      GroupMinimumAge(h) <= GroupMinimumAge(DefaultAgeGroup(true, Some(a as real)))
    ensures DefaultAgeGroup(true, Some(GroupMinimumAge(h) as real)) == h
    ensures DefaultAgeGroup(true, Some(GroupDefaultAge(h) as real)) == h
  {
  }

  // ---------------------------------------------------------------------
  // Inputs

  /** Monthly pre-tax income lines of the detailed form. */
  datatype MonthlyIncome = MonthlyIncome(
    salary: real, sideGigs: real, businessIncome: real, investmentIncome: real,
    socialSecurity: real, rentalIncome: real, otherIncome: real)

  /** Monthly expense lines of the detailed form. */
  datatype MonthlyExpenses = MonthlyExpenses(
    mortgageRent: real, utilities: real, groceries: real, entertainment: real,
    transportation: real, healthcare: real, education: real,
    insurance: real, debtPayments: real, otherExpenses: real)

  /** The input style: line by line, or one monthly total for each side. */
  datatype Budget =
    | Detailed(income: MonthlyIncome, expenses: MonthlyExpenses)
    | Gross(monthlyIncome: real, monthlyExpenses: real)

  datatype Assets = Assets(
    iraBalance: real, savingsBalance: real, otherInvestments: real,
    homeValue: real, carValue: real)

  datatype Liabilities = Liabilities(
    mortgageBalance: real, studentLoans: real, creditCardDebt: real,
    carLoans: real, otherDebt: real)

  /** The simulation sliders, all fractional annual rates. */
  datatype Rates = Rates(
    incomeTaxRate: real, rmdTaxRate: real, inflationRate: real, growthRate: real,
    homeAppreciation: real, ssCola: real, rentGrowth: real)

  /** Every value the projection reads from the form. */
  datatype Profile = Profile(
    ageGroup: AgeGroup, age: real, budget: Budget, assets: Assets,
    liabilities: Liabilities, rates: Rates, simYears: real)

  // ---------------------------------------------------------------------
  // Input totals shown under each section of the form

  function IncomeItems(m: MonthlyIncome): seq<real>
  {
    [m.salary, m.sideGigs, m.investmentIncome, m.businessIncome,
     m.socialSecurity, m.rentalIncome, m.otherIncome]
  }

  function ExpenseItems(e: MonthlyExpenses): seq<real>
  {
    [e.mortgageRent, e.utilities, e.groceries, e.transportation, e.healthcare,
     e.education, e.entertainment, e.insurance, e.debtPayments, e.otherExpenses]
  }

  function AssetItems(a: Assets): seq<real>
  {
    [a.iraBalance, a.savingsBalance, a.homeValue, a.carValue, a.otherInvestments]
  }

  function LiabilityItems(l: Liabilities): seq<real>
  {
    [l.mortgageBalance, l.studentLoans, l.creditCardDebt, l.carLoans, l.otherDebt]
  }

  function TotalMonthlyIncome(m: MonthlyIncome): real { Sum(IncomeItems(m)) }

  function TotalMonthlyExpenses(e: MonthlyExpenses): real { Sum(ExpenseItems(e)) }

  function TotalAssets(a: Assets): real { Sum(AssetItems(a)) }

  function TotalLiabilities(l: Liabilities): real { Sum(LiabilityItems(l)) }

  function NetHomeEquity(a: Assets, l: Liabilities): real { a.homeValue - l.mortgageBalance }

  function NetCarEquity(a: Assets, l: Liabilities): real { a.carValue - l.carLoans }

  lemma TotalAssetsExpanded(a: Assets)
    ensures TotalAssets(a) == a.iraBalance + a.savingsBalance + a.homeValue + a.carValue + a.otherInvestments
  {
    assert [a.otherInvestments][1..] == [];
    assert Sum([a.otherInvestments]) == a.otherInvestments;
    assert [a.carValue, a.otherInvestments][1..] == [a.otherInvestments];
    assert Sum([a.carValue, a.otherInvestments]) == a.carValue + a.otherInvestments;
    assert [a.homeValue, a.carValue, a.otherInvestments][1..] == [a.carValue, a.otherInvestments];
    assert Sum([a.homeValue, a.carValue, a.otherInvestments]) == a.homeValue + a.carValue + a.otherInvestments;
    assert [a.savingsBalance, a.homeValue, a.carValue, a.otherInvestments][1..] == [a.homeValue, a.carValue, a.otherInvestments];
    assert Sum([a.savingsBalance, a.homeValue, a.carValue, a.otherInvestments]) == a.savingsBalance + a.homeValue + a.carValue + a.otherInvestments;
    assert [a.iraBalance, a.savingsBalance, a.homeValue, a.carValue, a.otherInvestments][1..] == [a.savingsBalance, a.homeValue, a.carValue, a.otherInvestments];
  }

  lemma TotalLiabilitiesExpanded(l: Liabilities)
    ensures TotalLiabilities(l) ==
      l.mortgageBalance + l.studentLoans + l.creditCardDebt + l.carLoans + l.otherDebt
  {
    assert [l.otherDebt][1..] == [];
    assert Sum([l.otherDebt]) == l.otherDebt;
    assert [l.carLoans, l.otherDebt][1..] == [l.otherDebt];
    assert Sum([l.carLoans, l.otherDebt]) == l.carLoans + l.otherDebt;
    assert [l.creditCardDebt, l.carLoans, l.otherDebt][1..] == [l.carLoans, l.otherDebt];
    assert Sum([l.creditCardDebt, l.carLoans, l.otherDebt]) == l.creditCardDebt + l.carLoans + l.otherDebt;
    assert [l.studentLoans, l.creditCardDebt, l.carLoans, l.otherDebt][1..] == [l.creditCardDebt, l.carLoans, l.otherDebt];
    assert Sum([l.studentLoans, l.creditCardDebt, l.carLoans, l.otherDebt]) == l.studentLoans + l.creditCardDebt + l.carLoans + l.otherDebt;
    assert [l.mortgageBalance, l.studentLoans, l.creditCardDebt, l.carLoans, l.otherDebt][1..] == [l.studentLoans, l.creditCardDebt, l.carLoans, l.otherDebt];
  }

  lemma TotalMonthlyIncomeExpanded(m: MonthlyIncome)
    ensures TotalMonthlyIncome(m) ==
      m.salary + m.sideGigs + m.investmentIncome + m.businessIncome +
      m.socialSecurity + m.rentalIncome + m.otherIncome
  {
    assert [m.otherIncome][1..] == [];
    assert Sum([m.otherIncome]) == m.otherIncome;
    assert [m.rentalIncome, m.otherIncome][1..] == [m.otherIncome];
    assert Sum([m.rentalIncome, m.otherIncome]) == m.rentalIncome + m.otherIncome;
    assert [m.socialSecurity, m.rentalIncome, m.otherIncome][1..] == [m.rentalIncome, m.otherIncome];
    assert Sum([m.socialSecurity, m.rentalIncome, m.otherIncome]) == m.socialSecurity + m.rentalIncome + m.otherIncome;
    assert [m.businessIncome, m.socialSecurity, m.rentalIncome, m.otherIncome][1..] == [m.socialSecurity, m.rentalIncome, m.otherIncome];
    assert Sum([m.businessIncome, m.socialSecurity, m.rentalIncome, m.otherIncome]) == m.businessIncome + m.socialSecurity + m.rentalIncome + m.otherIncome;
    assert [m.investmentIncome, m.businessIncome, m.socialSecurity, m.rentalIncome, m.otherIncome][1..] == [m.businessIncome, m.socialSecurity, m.rentalIncome, m.otherIncome];
    assert Sum([m.investmentIncome, m.businessIncome, m.socialSecurity, m.rentalIncome, m.otherIncome]) == m.investmentIncome + m.businessIncome + m.socialSecurity + m.rentalIncome + m.otherIncome;
    assert [m.sideGigs, m.investmentIncome, m.businessIncome, m.socialSecurity, m.rentalIncome, m.otherIncome][1..] == [m.investmentIncome, m.businessIncome, m.socialSecurity, m.rentalIncome, m.otherIncome];
    assert Sum([m.sideGigs, m.investmentIncome, m.businessIncome, m.socialSecurity, m.rentalIncome, m.otherIncome]) == m.sideGigs + m.investmentIncome + m.businessIncome + m.socialSecurity + m.rentalIncome + m.otherIncome;
    assert [m.salary, m.sideGigs, m.investmentIncome, m.businessIncome, m.socialSecurity, m.rentalIncome, m.otherIncome][1..] == [m.sideGigs, m.investmentIncome, m.businessIncome, m.socialSecurity, m.rentalIncome, m.otherIncome];
  }

  /** The form's fields never go below zero, so each section's total is at
      least every one of its lines. */
  lemma InputTotalsBoundTheirLines(m: MonthlyIncome, e: MonthlyExpenses, a: Assets, l: Liabilities, k: nat)
    requires forall j :: 0 <= j < |IncomeItems(m)| ==> IncomeItems(m)[j] >= 0.0
    requires forall j :: 0 <= j < |ExpenseItems(e)| ==> ExpenseItems(e)[j] >= 0.0
    requires forall j :: 0 <= j < |AssetItems(a)| ==> AssetItems(a)[j] >= 0.0
    requires forall j :: 0 <= j < |LiabilityItems(l)| ==> LiabilityItems(l)[j] >= 0.0
    ensures k < 7 ==> 0.0 <= IncomeItems(m)[k] <= TotalMonthlyIncome(m)
    ensures k < 10 ==> 0.0 <= ExpenseItems(e)[k] <= TotalMonthlyExpenses(e)
    ensures k < 5 ==> 0.0 <= AssetItems(a)[k] <= TotalAssets(a)
    ensures k < 5 ==> 0.0 <= LiabilityItems(l)[k] <= TotalLiabilities(l)
  {
    if k < 7 { SumBoundsEach(IncomeItems(m), k); }
    if k < 10 { SumBoundsEach(ExpenseItems(e), k); }
    if k < 5 {
      SumBoundsEach(AssetItems(a), k);
      SumBoundsEach(LiabilityItems(l), k);
    }
  }

  /** The two equity figures, plus the remaining assets and minus the
      remaining debts, give total assets minus total liabilities. */
  lemma EquityDecomposesNetWorth(a: Assets, l: Liabilities)
    ensures NetHomeEquity(a, l) + NetCarEquity(a, l)
      + a.iraBalance + a.savingsBalance + a.otherInvestments
      - (l.studentLoans + l.creditCardDebt + l.otherDebt)
      == TotalAssets(a) - TotalLiabilities(l)
  {
    TotalAssetsExpanded(a);
    TotalLiabilitiesExpanded(l);
  }

  // ---------------------------------------------------------------------
  // RMD divisors

  /** The divisor table, in the rows of ten keys the script writes it in;
      each row ends in the next. */
  function IrsDivisorsFrom25(): Table
  {
    Entry(25, 59.5,
    Entry(26, 58.5,
    Entry(27, 57.5,
    Entry(28, 56.5,
    Entry(29, 55.5,
    Entry(30, 54.5,
    Entry(31, 53.5,
    Entry(32, 52.5,
    Entry(33, 51.5,
    Entry(34, 50.5,
    IrsDivisorsFrom35()))))))))))
  }

  function IrsDivisorsFrom35(): Table
  {
    Entry(35, 49.5,
    Entry(36, 48.5,
    Entry(37, 47.5,
    Entry(38, 46.5,
    Entry(39, 45.5,
    Entry(40, 44.5,
    Entry(41, 43.5,
    Entry(42, 42.5,
    Entry(43, 41.5,
    Entry(44, 40.5,
    IrsDivisorsFrom45()))))))))))
  }

  function IrsDivisorsFrom45(): Table
  {
    Entry(45, 39.5,
    Entry(46, 38.5,
    Entry(47, 37.5,
    Entry(48, 36.5,
    Entry(49, 35.5,
    Entry(50, 34.5,
    Entry(51, 33.5,
    Entry(52, 32.5,
    Entry(53, 31.5,
    Entry(54, 30.5,
    IrsDivisorsFrom55()))))))))))
  }

  function IrsDivisorsFrom55(): Table
  {
    Entry(55, 29.5,
    Entry(56, 28.5,
    Entry(57, 27.5,
    Entry(58, 26.5,
    Entry(59, 25.5,
    Entry(60, 24.5,
    Entry(61, 23.5,
    Entry(62, 22.5,
    Entry(63, 21.5,
    Entry(64, 20.5,
    IrsDivisorsFrom65()))))))))))
  }

  function IrsDivisorsFrom65(): Table
  {
    Entry(65, 19.5,
    Entry(66, 18.5,
    Entry(67, 17.5,
    Entry(68, 16.5,
    Entry(69, 15.5,
    Entry(70, 27.4,
    Entry(71, 26.5,
    Entry(72, 25.6,
    Entry(73, 24.7,
    Entry(74, 23.8,
    IrsDivisorsFrom75()))))))))))
  }

  function IrsDivisorsFrom75(): Table
  {
    Entry(75, 22.9,
    Entry(76, 22.0,
    Entry(77, 21.2,
    Entry(78, 20.3,
    Entry(79, 19.5,
    Entry(80, 18.7,
    Entry(81, 17.9,
    Entry(82, 17.1,
    Entry(83, 16.3,
    Entry(84, 15.5,
    IrsDivisorsFrom85()))))))))))
  }

  function IrsDivisorsFrom85(): Table
  {
    Entry(85, 14.8,
    Entry(86, 14.1,
    Entry(87, 13.4,
    Entry(88, 12.7,
    Entry(89, 12.0,
    Entry(90, 11.4,
    Entry(91, 10.8,
    Entry(92, 10.2,
    Empty))))))))
  }

  lemma IrsDivisorsFrom85Shape()
    ensures Covers(IrsDivisorsFrom85(), 85, 92) && AtLeast(IrsDivisorsFrom85(), 10.2)
  {
  }

  lemma IrsDivisorsFrom75Shape()
    ensures Covers(IrsDivisorsFrom75(), 75, 92) && AtLeast(IrsDivisorsFrom75(), 10.2)
  {
    IrsDivisorsFrom85Shape();
  }

  lemma IrsDivisorsFrom65Shape()
    ensures Covers(IrsDivisorsFrom65(), 65, 92) && AtLeast(IrsDivisorsFrom65(), 10.2)
  {
    IrsDivisorsFrom75Shape();
  }

  lemma IrsDivisorsFrom55Shape()
    ensures Covers(IrsDivisorsFrom55(), 55, 92) && AtLeast(IrsDivisorsFrom55(), 10.2)
  {
    IrsDivisorsFrom65Shape();
  }

  lemma IrsDivisorsFrom45Shape()
    ensures Covers(IrsDivisorsFrom45(), 45, 92) && AtLeast(IrsDivisorsFrom45(), 10.2)
  {
    IrsDivisorsFrom55Shape();
  }

  lemma IrsDivisorsFrom35Shape()
    ensures Covers(IrsDivisorsFrom35(), 35, 92) && AtLeast(IrsDivisorsFrom35(), 10.2)
  {
    IrsDivisorsFrom45Shape();
  }

  lemma IrsDivisorsFrom25Shape()
    ensures Covers(IrsDivisorsFrom25(), 25, 92) && AtLeast(IrsDivisorsFrom25(), 10.2)
  {
    IrsDivisorsFrom35Shape();
  }

  /** The divisor table's entry for a whole age, `None` for ages it has no
      entry for. */
  function IrsDivisor(age: int): (d: Option<real>)
    ensures d.Some? <==> 25 <= age <= 92
    ensures d.Some? ==> d.value >= 10.2
  {
    IrsDivisorsFrom25Shape();
    LookupCovers(IrsDivisorsFrom25(), 25, 92, age);
    LookupAtLeast(IrsDivisorsFrom25(), 10.2, age);
    Lookup(IrsDivisorsFrom25(), age)
  }

  /** The divisor looked up for a (possibly fractional) age: a table key
      only when the age is a whole number, 10.2 for every other age. */
  function Divisor(age: real): (d: real)
    ensures d >= 10.2
    ensures age == age.Floor as real && 25 <= age.Floor <= 92 ==> d == IrsDivisor(age.Floor).value
    ensures !(age == age.Floor as real && 25 <= age.Floor <= 92) ==> d == 10.2
  {
    if age == age.Floor as real && IrsDivisor(age.Floor).Some? then IrsDivisor(age.Floor).value else 10.2
  }

  // ---------------------------------------------------------------------
  // One year of cash flow

  /** Number of years simulated: `int(sim_years)`, which truncates. */
  function YearCount(simYears: real): (n: nat)
    ensures simYears < 1.0 ==> n == 0
    ensures simYears >= 1.0 ==> n as real <= simYears < n as real + 1.0
  {
    if simYears < 1.0 then 0 else simYears.Floor
  }

  function AgeAt(p: Profile, i: nat): real { p.age + i as real }

  /** Annual social security in year `i` of the detailed form. */
  function AnnualSocialSecurity(p: Profile, i: nat): (ss: real)
    requires p.budget.Detailed?
    ensures ss != 0.0 ==> p.ageGroup != Ages25To55 && AgeAt(p, i) >= 62.0
    ensures p.ageGroup != Ages25To55 && AgeAt(p, i) >= 62.0 ==>
      ss == p.budget.income.socialSecurity * Pow(GrowthFactor(p.rates.ssCola), i) * 12.0
  {
    if p.ageGroup != Ages25To55 && AgeAt(p, i) >= 62.0 then
      p.budget.income.socialSecurity * Pow(GrowthFactor(p.rates.ssCola), i) * 12.0
    else
      0.0
  }

  /** Annual pre-tax income in year `i`. Only social security and rent grow;
      a gross monthly total is annualised but never grown. */
  function AnnualIncome(p: Profile, i: nat): real
  {
    match p.budget
    case Detailed(m, _) =>
      m.salary * 12.0 + m.sideGigs * 12.0 + m.investmentIncome * 12.0 + m.businessIncome * 12.0
      + AnnualSocialSecurity(p, i)
      + m.rentalIncome * Pow(GrowthFactor(p.rates.rentGrowth), i) * 12.0
      + m.otherIncome * 12.0
    case Gross(monthlyIncome, _) =>
      monthlyIncome * 12.0
  }

  /** Annual expenses in year `i`, every line inflated. */
  function AnnualExpenses(p: Profile, i: nat): real
  {
    match p.budget
    case Detailed(_, e) => Sum(Scaled(ExpenseItems(e), Pow(GrowthFactor(p.rates.inflationRate), i) * 12.0))
    case Gross(_, monthlyExpenses) => monthlyExpenses * Pow(GrowthFactor(p.rates.inflationRate), i) * 12.0
  }

  /** In the first year, the annual income is twelve times the monthly
      total shown on the form, less the social security line when the
      household does not draw it yet. */
  lemma FirstYearIncomeIsAnnualisedTotal(p: Profile)
    requires p.budget.Detailed?
    ensures AnnualIncome(p, 0) == TotalMonthlyIncome(p.budget.income) * 12.0
      - (if p.ageGroup != Ages25To55 && p.age >= 62.0 then 0.0 else p.budget.income.socialSecurity * 12.0)
  {
    TotalMonthlyIncomeExpanded(p.budget.income);
  }

  /** With gross totals, income stays at its first-year amount while
      expenses keep rising with inflation: the gap widens every year. */
  lemma GrossBudgetOnlyExpensesGrow(p: Profile, i: nat)
    requires p.budget.Gross?
    ensures AnnualIncome(p, i) == AnnualIncome(p, 0)
    ensures AnnualExpenses(p, i) == AnnualExpenses(p, 0) * Pow(GrowthFactor(p.rates.inflationRate), i)
  {
    assert Pow(GrowthFactor(p.rates.inflationRate), 0) == 1.0;
    var m := p.budget.monthlyExpenses;
    var f := Pow(GrowthFactor(p.rates.inflationRate), i);
    assert AnnualExpenses(p, 0) == m * 12.0;
    assert AnnualExpenses(p, i) == m * f * 12.0;
  }

  /** In both input styles, the year's expenses are the monthly total on the
      form, annualised and inflated as one amount. */
  lemma ExpensesAreInflatedMonthlyTotal(p: Profile, i: nat)
    ensures AnnualExpenses(p, i) == Pow(GrowthFactor(p.rates.inflationRate), i) * 12.0 *
      (match p.budget
       case Detailed(_, e) => TotalMonthlyExpenses(e)
       case Gross(_, monthlyExpenses) => monthlyExpenses)
  {
    if p.budget.Detailed? {
      SumScaled(ExpenseItems(p.budget.expenses), Pow(GrowthFactor(p.rates.inflationRate), i) * 12.0);
    }
  }

  /** What the RMD step yields: the withdrawal and the withdrawal after RMD
      tax. */
  datatype Rmd = Rmd(amount: real, net: real)

  /** The RMD for a year: from age 72 on, the IRA divided by the age's
      divisor when the IRA is positive. */
  function TakeRmd(ira: real, age: real, rmdTaxRate: real): (r: Rmd)
    ensures r.net == AfterTax(r.amount, rmdTaxRate)
    ensures r.amount == 0.0 <==> age < 72.0 || ira <= 0.0
    ensures r.amount != 0.0 ==> r.amount == ira / Divisor(age) && 0.0 < r.amount < ira
  {
    if age >= 72.0 then
      var d := Divisor(age);
      var rmd := if ira > 0.0 then ira / d else 0.0;
      Rmd(rmd, AfterTax(rmd, rmdTaxRate))
    else
      Rmd(0.0, 0.0)
  }

  /** What must come out of the combined balance: the after-tax shortfall
      not already covered by the after-tax RMD, and never less than zero. */
  function CashFromSavings(netDraw: real, netRmd: real): (c: real)
    ensures c >= 0.0 && c >= netDraw - netRmd
    ensures c == 0.0 <==> netDraw <= netRmd
    ensures c != 0.0 ==> c == netDraw - netRmd
  {
    Max(0.0, netDraw - netRmd)
  }

  /** The combined balance through one year: the RMD is deducted from the
      IRA, what is left is grown, added to savings, the sum grown again and
      the cash drawn. */
  datatype Draw = Draw(ira: real, open: real, growth: real, before: real, cash: real, end: real)

  function GrowAndDraw(iraLeft: real, savings: real, g: real, netDraw: real, netRmd: real): (d: Draw)
    ensures d.ira == Grown(iraLeft, g)
    ensures d.open == Grown(iraLeft, g) + savings
    ensures d.growth == GrowthOn(d.open, g)
    ensures d.open + d.growth == d.before
    ensures d.cash == CashFromSavings(netDraw, netRmd)
    ensures d.before - d.cash == d.end
    ensures netDraw <= netRmd ==> d.end == Grown(d.open, g)
    ensures iraLeft >= 0.0 && g >= -1.0 ==> d.ira >= 0.0
  {
    var grownIra := iraLeft + iraLeft * g;
    var combined := grownIra + savings;
    var growth := combined * g;
    var before := combined + growth;
    var cash := CashFromSavings(netDraw, netRmd);
    Draw(grownIra, before - growth, growth, before, cash, before - cash)
  }

  datatype Accounts = Accounts(ira: real, savings: real)

  /** Splits the year-end combined balance back into IRA and savings in the
      IRA's share of their sum; a balance at or below zero is all savings. */
  function Allocate(combined: real, ira: real, savings: real): (a: Accounts)
    ensures a.ira + a.savings == combined
    ensures combined <= 0.0 ==> a.ira == 0.0 && a.savings == combined
    ensures combined > 0.0 && ira + savings > 0.0 ==> a.ira * (ira + savings) == combined * ira
    ensures combined > 0.0 && ira + savings <= 0.0 ==> a.ira == 0.0 && a.savings == combined
    ensures ira >= 0.0 ==> a.ira >= 0.0
  {
    if combined <= 0.0 then
      Accounts(0.0, combined)
    else
      var share := if ira + savings > 0.0 then ira / (ira + savings) else 0.0;
      Accounts(combined * share, combined * (1.0 - share))
  }

  /** Balances carried from one year to the next. */
  datatype SimState = SimState(ira: real, savings: real, home: real)

  /** One line of the year-by-year table, before display rounding. */
  datatype Row = Row(
    year: int, age: real,
    totalIncome: real, netTotalIncome: real, totalExpenses: real, netDraw: real,
    rmdUsed: real, netRmdUsed: real, cashFromSavings: real,
    savingsOpen: real, savingsGrowth: real, savingsBeforeDraw: real, savingsEnd: real,
    homeValue: real, netWorth: real)

  datatype Year = Year(next: SimState, row: Row)

  /** One pass of the simulation loop, year `i` from state `s`. */
  function Step(p: Profile, i: nat, s: SimState): Year
  {
    var ageI := AgeAt(p, i);
    var totalIncome := AnnualIncome(p, i);
    var netIncome := AfterTax(totalIncome, p.rates.incomeTaxRate);
    var totalExpenses := AnnualExpenses(p, i);
    var netDraw := totalExpenses - netIncome;
    var rmd := TakeRmd(s.ira, ageI, p.rates.rmdTaxRate);
    var d := GrowAndDraw(s.ira - rmd.amount, s.savings, p.rates.growthRate, netDraw, rmd.net);
    var accounts := Allocate(d.end, d.ira, s.savings);
    var home := s.home + s.home * p.rates.homeAppreciation;
    var l := p.liabilities;
    var totalAssets := accounts.ira + accounts.savings + home + p.assets.carValue + p.assets.otherInvestments;
    var totalLiabilities := l.mortgageBalance + l.studentLoans + l.creditCardDebt + l.carLoans + l.otherDebt;
    Year(
      SimState(accounts.ira, accounts.savings, home),
      Row(START_YEAR + i, ageI, totalIncome, netIncome, totalExpenses, netDraw,
          rmd.amount, rmd.net, d.cash, d.open, d.growth, d.before, d.end,
          home, totalAssets - totalLiabilities))
  }

  // ---------------------------------------------------------------------
  // The whole projection

  datatype Projection = Projection(state: SimState, rows: seq<Row>)

  /** `n` passes of a year function `f` from the balances `s0`: the balances
      after the last pass and one row per pass, in order. */
  function Iterate(f: (nat, SimState) -> Year, s0: SimState, n: nat): (r: Projection)
    ensures |r.rows| == n
  {
    if n == 0 then
      Projection(s0, [])
    else
      var prev := Iterate(f, s0, n - 1);
      var y := f(n - 1, prev.state);
      Projection(y.next, prev.rows + [y.row])
  }

  /** Row `k` of any longer run is pass `k` from the balances entering it:
      later passes never rewrite earlier rows. */
  lemma {:induction false} IterateRowAt(f: (nat, SimState) -> Year, s0: SimState, n: nat, k: nat)
    requires k < n
    ensures Iterate(f, s0, n).rows[k] == f(k, Iterate(f, s0, k).state).row
  {
    if k < n - 1 {
      IterateRowAt(f, s0, n - 1, k);
    }
  }

  /** Every pass of `f` grows the home value at `rate`. */
  ghost predicate GrowsHome(f: (nat, SimState) -> Year, rate: real)
  {
    forall i: nat, s: SimState :: f(i, s).next.home == Grown(s.home, rate)
  }

  /** Every pass of `f` keeps a non-negative IRA non-negative. */
  ghost predicate KeepsIraNonnegative(f: (nat, SimState) -> Year)
  {
    forall i: nat, s: SimState :: s.ira >= 0.0 ==> f(i, s).next.ira >= 0.0
  }

  /** A year function that grows the home at `rate` every pass compounds
      it: after `k` passes it is the start grown `k` times. */
  lemma {:induction false} IterateCompoundsHome(f: (nat, SimState) -> Year, s0: SimState, rate: real, k: nat)
    requires GrowsHome(f, rate)
    ensures Iterate(f, s0, k).state.home == Compounded(s0.home, rate, k)
  {
    if k > 0 {
      IterateCompoundsHome(f, s0, rate, k - 1);
      CompoundOnce(s0.home, rate, k);
    }
  }

  /** A year function that never turns a non-negative IRA negative keeps it
      non-negative for the whole run. */
  lemma {:induction false} IterateKeepsIraNonnegative(f: (nat, SimState) -> Year, s0: SimState, k: nat)
    requires s0.ira >= 0.0
    requires KeepsIraNonnegative(f)
    ensures Iterate(f, s0, k).state.ira >= 0.0
  {
    if k > 0 {
      IterateKeepsIraNonnegative(f, s0, k - 1);
    }
  }

  function Initial(p: Profile): SimState
  {
    SimState(p.assets.iraBalance, p.assets.savingsBalance, p.assets.homeValue)
  }

  /** The script's year function for the values on the form. */
  function YearOf(p: Profile): (nat, SimState) -> Year
  {
    (i: nat, s: SimState) => Step(p, i, s)
  }

  /** The state and table after the first `n` years. */
  function Project(p: Profile, n: nat): Projection
  {
    Iterate(YearOf(p), Initial(p), n)
  }

  /** The balances entering year `k`. */
  function StateAt(p: Profile, k: nat): SimState { Project(p, k).state }

  /** The table the script builds. */
  function Rows(p: Profile): seq<Row> { Project(p, YearCount(p.simYears)).rows }

  /** Row `k` of any projection of more than `k` years is year `k`'s step
      from the balances entering year `k`. */
  lemma RowAt(p: Profile, n: nat, k: nat)
    requires k < n
    ensures Project(p, n).rows[k] == Step(p, k, StateAt(p, k)).row
  {
    IterateRowAt(YearOf(p), Initial(p), n, k);
  }

  lemma StateAfter(p: Profile, k: nat)
    ensures StateAt(p, k + 1) == Step(p, k, StateAt(p, k)).next
  {
  }

  // ---------------------------------------------------------------------
  // One year, from any balances

  /** The ledger of one year: growth is the rate on the opening balance,
      open plus growth is the balance before the draw, which less the cash
      drawn is the year-end balance that the IRA and savings then hold; and
      an RMD at least as large as the need leaves the grown balance
      untouched (its excess is not deposited). */
  lemma YearLedger(p: Profile, i: nat, s: SimState)
    ensures var y := Step(p, i, s); var r := y.row;
      r.savingsGrowth == GrowthOn(r.savingsOpen, p.rates.growthRate) &&
      r.savingsOpen + r.savingsGrowth == r.savingsBeforeDraw &&
      r.savingsBeforeDraw - r.cashFromSavings == r.savingsEnd &&
      r.cashFromSavings >= 0.0 &&
      (r.netDraw <= r.netRmdUsed ==> r.savingsEnd == Grown(r.savingsOpen, p.rates.growthRate)) &&
      y.next.ira + y.next.savings == r.savingsEnd
  {
  }

  /** The opening balance of a year: the IRA left after the RMD, grown,
      plus the savings carried in. */
  lemma YearOpens(p: Profile, i: nat, s: SimState)
    ensures var r := Step(p, i, s).row;
      r.savingsOpen == Grown(s.ira - r.rmdUsed, p.rates.growthRate) + s.savings
  {
  }

  /** The RMD of one year: zero before age 72 or with no IRA, otherwise the
      IRA entering the year divided by the age's divisor. */
  lemma YearRmd(p: Profile, i: nat, s: SimState)
    ensures var r := Step(p, i, s).row;
      (r.rmdUsed == 0.0 <==> AgeAt(p, i) < 72.0 || s.ira <= 0.0) &&
      (r.rmdUsed != 0.0 ==> r.rmdUsed == s.ira / Divisor(AgeAt(p, i))) &&
      r.netRmdUsed == AfterTax(r.rmdUsed, p.rates.rmdTaxRate)
  {
  }

  /** A year appreciates the home; net worth is the year-end balance plus
      home, car and other investments, less the total liabilities. */
  lemma YearHomeAndNetWorth(p: Profile, i: nat, s: SimState)
    ensures var y := Step(p, i, s);
      y.next.home == Grown(s.home, p.rates.homeAppreciation) == y.row.homeValue &&
      y.row.netWorth == y.row.savingsEnd + y.row.homeValue
        + p.assets.carValue + p.assets.otherInvestments - TotalLiabilities(p.liabilities)
  {
    TotalLiabilitiesExpanded(p.liabilities);
  }

  /** With a growth rate of at least -100%, a year never turns a
      non-negative IRA negative. */
  lemma YearIraNonnegative(p: Profile, i: nat, s: SimState)
    requires s.ira >= 0.0 && p.rates.growthRate >= -1.0
    ensures Step(p, i, s).next.ira >= 0.0
  {
  }

  /** Before age 72 the IRA compounds twice in a year while savings
      compounds once. */
  lemma IraCompoundsTwice(p: Profile, i: nat, s: SimState)
    requires AgeAt(p, i) < 72.0
    ensures var g := p.rates.growthRate;
      Step(p, i, s).row.savingsBeforeDraw == Grown(Grown(s.ira, g), g) + Grown(s.savings, g)
  {
  }

  // ---------------------------------------------------------------------
  // Every year of the table

  /** The table has one row per simulated year, numbered from 2025, with
      the age counting up from the starting age. */
  lemma RowsShape(p: Profile, k: nat)
    requires k < |Rows(p)|
    ensures |Rows(p)| == YearCount(p.simYears)
    ensures Rows(p)[k].year == START_YEAR + k && Rows(p)[k].age == p.age + k as real
  {
    RowAt(p, YearCount(p.simYears), k);
  }

  /** The ledger holds in every row, and the year-end balance is what the
      IRA and savings hold entering the next year. */
  lemma Ledger(p: Profile, k: nat)
    requires k < |Rows(p)|
    ensures var r := Rows(p)[k];
      r.savingsGrowth == GrowthOn(r.savingsOpen, p.rates.growthRate) &&
      r.savingsOpen + r.savingsGrowth == r.savingsBeforeDraw &&
      r.savingsBeforeDraw - r.cashFromSavings == r.savingsEnd &&
      r.cashFromSavings >= 0.0 &&
      (r.netDraw <= r.netRmdUsed ==> r.savingsEnd == Grown(r.savingsOpen, p.rates.growthRate)) &&
      StateAt(p, k + 1).ira + StateAt(p, k + 1).savings == r.savingsEnd
  {
    RowAt(p, YearCount(p.simYears), k);
    YearLedger(p, k, StateAt(p, k));
    StateAfter(p, k);
  }

  /** Between two consecutive years the combined balance changes only by
      the next year's RMD and the growth on the IRA left after it. */
  lemma Continuity(p: Profile, k: nat)
    requires k + 1 < |Rows(p)|
    ensures var ira := StateAt(p, k + 1).ira;
      Rows(p)[k + 1].savingsOpen ==
        Rows(p)[k].savingsEnd - Rows(p)[k + 1].rmdUsed
        + GrowthOn(ira - Rows(p)[k + 1].rmdUsed, p.rates.growthRate)
  {
    Ledger(p, k);
    RowAt(p, YearCount(p.simYears), k + 1);
    var s := StateAt(p, k + 1);
    YearOpens(p, k + 1, s);
    Reopen(Rows(p)[k + 1].savingsOpen, s.ira, s.savings, Rows(p)[k].savingsEnd,
      Rows(p)[k + 1].rmdUsed, p.rates.growthRate);
  }

  /** The arithmetic behind continuity: an opening balance built from the
      IRA and savings carried in is the previous year-end balance, less the
      RMD, plus growth on the IRA left after it. */
  lemma Reopen(open: real, ira: real, savings: real, end: real, rmd: real, g: real)
    requires open == Grown(ira - rmd, g) + savings
    requires ira + savings == end
    ensures open == end - rmd + GrowthOn(ira - rmd, g)
  {
  }

  /** The RMD recorded in row `k`. */
  lemma RmdInRow(p: Profile, k: nat)
    requires k < |Rows(p)|
    ensures var r := Rows(p)[k];
      var ira := StateAt(p, k).ira;
      (r.rmdUsed == 0.0 <==> AgeAt(p, k) < 72.0 || ira <= 0.0) &&
      (r.rmdUsed != 0.0 ==> r.rmdUsed == ira / Divisor(AgeAt(p, k))) &&
      r.netRmdUsed == AfterTax(r.rmdUsed, p.rates.rmdTaxRate)
  {
    RowAt(p, YearCount(p.simYears), k);
    YearRmd(p, k, StateAt(p, k));
  }

  /** The script's year function grows the home by its appreciation rate. */
  lemma YearGrowsHome(p: Profile)
    ensures GrowsHome(YearOf(p), p.rates.homeAppreciation)
  {
    forall i: nat, s: SimState
      ensures YearOf(p)(i, s).next.home == Grown(s.home, p.rates.homeAppreciation)
    {
      YearHomeAndNetWorth(p, i, s);
    }
  }

  /** The home value entering year `k` is the starting value compounded
      `k` times. */
  lemma HomeAt(p: Profile, k: nat)
    ensures StateAt(p, k).home == Compounded(Initial(p).home, p.rates.homeAppreciation, k)
  {
    YearGrowsHome(p);
    IterateCompoundsHome(YearOf(p), Initial(p), p.rates.homeAppreciation, k);
  }

  /** With a non-negative appreciation rate, the home value entering any
      year is at least its starting value. */
  lemma HomeNeverFalls(p: Profile, k: nat)
    requires p.assets.homeValue >= 0.0 && p.rates.homeAppreciation >= 0.0
    ensures StateAt(p, k).home >= p.assets.homeValue
  {
    HomeAt(p, k);
    PowAtLeastOne(GrowthFactor(p.rates.homeAppreciation), k);
    assert p.assets.homeValue * Pow(GrowthFactor(p.rates.homeAppreciation), k) >= p.assets.homeValue * 1.0;
  }

  /** The home value in row `k` is the starting value compounded `k + 1`
      times; net worth is the year-end balance plus home, car and other
      investments, less the same total liabilities in every row. */
  lemma HomeAndNetWorth(p: Profile, k: nat)
    requires k < |Rows(p)|
    ensures Rows(p)[k].homeValue == Compounded(Initial(p).home, p.rates.homeAppreciation, k + 1)
    ensures Rows(p)[k].netWorth == Rows(p)[k].savingsEnd + Rows(p)[k].homeValue
      + p.assets.carValue + p.assets.otherInvestments - TotalLiabilities(p.liabilities)
  {
    RowAt(p, YearCount(p.simYears), k);
    YearHomeAndNetWorth(p, k, StateAt(p, k));
    HomeAt(p, k + 1);
    StateAfter(p, k);
  }

  /** The script's year function keeps a non-negative IRA non-negative
      when the growth rate is at least -100%. */
  lemma YearKeepsIraNonnegative(p: Profile)
    requires p.rates.growthRate >= -1.0
    ensures KeepsIraNonnegative(YearOf(p))
  {
    forall i: nat, s: SimState | s.ira >= 0.0
      ensures YearOf(p)(i, s).next.ira >= 0.0
    {
      YearIraNonnegative(p, i, s);
    }
  }

  /** With a non-negative starting IRA and a growth rate of at least -100%,
      the IRA never goes negative; only savings can. */
  lemma IraNeverNegative(p: Profile, k: nat)
    requires p.assets.iraBalance >= 0.0 && p.rates.growthRate >= -1.0
    ensures StateAt(p, k).ira >= 0.0
  {
    YearKeepsIraNonnegative(p);
    IterateKeepsIraNonnegative(YearOf(p), Initial(p), k);
  }

  // ---------------------------------------------------------------------
  // The simulation loop

  /** The script's RMD block: from age 72 on, the IRA divided by the
      age's divisor when positive, taken out of the IRA and taxed. */
  method WithdrawRmd(curIra: real, ageI: real, rmdTaxRate: real) returns (rmd: real, netRmd: real, iraLeft: real)
    ensures Rmd(rmd, netRmd) == TakeRmd(curIra, ageI, rmdTaxRate)
    ensures iraLeft == curIra - rmd
  {
    rmd := 0.0;
    netRmd := 0.0;
    iraLeft := curIra;
    if ageI >= 72.0 {
      var div := Divisor(ageI);
      rmd := if curIra > 0.0 then curIra / div else 0.0;
      iraLeft := iraLeft - rmd;
      netRmd := rmd * (1.0 - rmdTaxRate);
    }
  }

  /** The script's growth block: the IRA left after the RMD grows, joins
      savings, the sum grows again and the cash for the year is drawn. */
  method GrowCombined(iraLeft: real, curSavings: real, g: real, netDraw: real, netRmd: real)
    returns (curIra: real, savingsGrowth: real, combinedBefore: real, cashFromSavings: real, combinedBalance: real)
    ensures GrowAndDraw(iraLeft, curSavings, g, netDraw, netRmd)
         == Draw(curIra, combinedBefore - savingsGrowth, savingsGrowth, combinedBefore, cashFromSavings, combinedBalance)
  {
    var iraGrowth := iraLeft * g;
    curIra := iraLeft + iraGrowth;
    combinedBalance := curIra + curSavings;
    savingsGrowth := combinedBalance * g;
    combinedBefore := combinedBalance + savingsGrowth;
    cashFromSavings := Max(0.0, netDraw - netRmd);
    combinedBalance := combinedBefore - cashFromSavings;
  }

  /** The script's split of the year-end balance back into the two accounts. */
  method Reallocate(combinedBalance: real, curIra: real, curSavings: real) returns (newIra: real, newSavings: real)
    ensures Accounts(newIra, newSavings) == Allocate(combinedBalance, curIra, curSavings)
  {
    if combinedBalance <= 0.0 {
      newIra := 0.0;
      newSavings := combinedBalance;
    } else {
      var iraProportion := if curIra + curSavings > 0.0 then curIra / (curIra + curSavings) else 0.0;
      newIra := combinedBalance * iraProportion;
      newSavings := combinedBalance * (1.0 - iraProportion);
    }
  }

  /** One pass of the script's loop, block by block: it computes the year
      function's year for the balances it is given. */
  method SimulateYear(p: Profile, i: nat, curIra: real, curSavings: real, curHomeValue: real)
    returns (newIra: real, newSavings: real, newHomeValue: real, row: Row)
    ensures Step(p, i, SimState(curIra, curSavings, curHomeValue)) == Year(SimState(newIra, newSavings, newHomeValue), row)
  {
    var g := p.rates.growthRate;
    var l := p.liabilities;
    var yr := START_YEAR + i;
    var ageI := p.age + i as real;

    var totalIncome := AnnualIncome(p, i);
    var netIncome := AfterTax(totalIncome, p.rates.incomeTaxRate);
    var totalExpenses := AnnualExpenses(p, i);

    var rmd, netRmd, iraLeft := WithdrawRmd(curIra, ageI, p.rates.rmdTaxRate);
    var netDraw := totalExpenses - netIncome;
    var grownIra, savingsGrowth, combinedBefore, cashFromSavings, combinedBalance :=
      GrowCombined(iraLeft, curSavings, g, netDraw, netRmd);
    newIra, newSavings := Reallocate(combinedBalance, grownIra, curSavings);

    var homeGrowth := curHomeValue * p.rates.homeAppreciation;
    newHomeValue := curHomeValue + homeGrowth;

    var totalAssets := newIra + newSavings + newHomeValue + p.assets.carValue + p.assets.otherInvestments;
    var totalLiabilities := l.mortgageBalance + l.studentLoans + l.creditCardDebt + l.carLoans + l.otherDebt;
    var netWorth := totalAssets - totalLiabilities;

    row := Row(yr, ageI, totalIncome, netIncome, totalExpenses, netDraw, rmd, netRmd,
               cashFromSavings, combinedBefore - savingsGrowth, savingsGrowth,
               combinedBefore, combinedBalance, newHomeValue, netWorth);
  }

  /** The simulation loop of the script, over the form's values. */
  method Simulate(p: Profile) returns (rows: seq<Row>)
    ensures rows == Rows(p)
    ensures |rows| == YearCount(p.simYears)
    ensures forall k :: 0 <= k < |rows| ==> rows[k].year == START_YEAR + k && rows[k].age == p.age + k as real
  {
    rows := [];
    var curIra := p.assets.iraBalance;
    var curSavings := p.assets.savingsBalance;
    var curHomeValue := p.assets.homeValue;
    var n := YearCount(p.simYears);
    for i := 0 to n
      invariant Project(p, i) == Projection(SimState(curIra, curSavings, curHomeValue), rows)
      invariant forall k :: 0 <= k < |rows| ==> rows[k].year == START_YEAR + k && rows[k].age == p.age + k as real
    {
      var row;
      curIra, curSavings, curHomeValue, row := SimulateYear(p, i, curIra, curSavings, curHomeValue);
      rows := rows + [row];
    }
  }
}
