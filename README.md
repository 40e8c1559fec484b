# Retirement projection loops, modelled and verified in Dafny

The repository holds two Streamlit retirement planners. Each one runs a
year-by-year projection loop over the values entered in its form. This
project models both loops and the pure helpers around them.

- **All-ages projector** (`all_ages.dfy`, module `AllAges`). It models
  `app_simulation_all_ages.py`. A household enters monthly income and
  expenses, either line by line or as two gross totals, and also its assets,
  debts and rates. Each year the loop does the following:
  - annualises income and expenses, growing social security and rent and
    inflating expenses;
  - takes an RMD (required minimum distribution) from the IRA from age 72
    on, using a divisor table with 10.2 as the default;
  - grows the IRA;
  - adds savings to the IRA and grows the combined balance;
  - draws `max(0, net_draw - net_rmd)` from the combined balance;
  - splits the result back into IRA and savings in proportion;
  - appreciates the home and computes net worth.

  The model also covers the age-group preselection and the section totals
  of the form.
- **Single-mode projector** (`single_mode.dfy`, module `SingleMode`). It
  models `app_sharable_single_mode.py`. One or two people live on social
  security and rent. Each year the loop does the following:
  - takes RMDs at ages 73 to 92, from the IRA when it is positive and
    otherwise from savings;
  - grows both accounts;
  - covers any shortfall from the IRA first and then from savings, each
    draw capped at its balance;
  - keeps a total of the drawdown;
  - records the first year the IRA is at most 1, the first year savings
    is at most 1, and the first year with a shortfall.
- `basics.dfy` (module `Basics`) holds the shared numeric pieces:
  - `Option`;
  - whole-number powers, which model `(1 + r) ** i`;
  - growth, compounding and after-tax amounts;
  - lookup tables, which model the dictionary literals;
  - Python's `max`, `min` and `sum`.

Each loop is an imperative `method` (`Simulate`). Its loop invariant ties
the variables it updates to a specification function: `Step` is one year,
and `Project` is the first `n` years. Each pass of the loop calls
`SimulateYear`, which is proved to compute `Step`. The per-year and
per-row lemmas state what the scripts promise about that function.

Amounts are `real`. Ages and years are `int` in the single-mode script and
`real` in the all-ages script, because there the age and the number of years
come from float number inputs.

The model keeps the all-ages script's behaviour exactly as written:
- the IRA is grown once on its own and again inside the combined balance;
- an RMD larger than the year's need, and any income surplus, are not
  deposited anywhere;
- liabilities are the same in every year;
- any age that is not a whole number from 25 to 92 gets divisor 10.2.

`AllAges.GrowAndDraw` and `AllAges.YearLedger` prove that when
`net_draw <= net_rmd` the year-end balance is the grown opening balance.

## Model

| member | source | states |
|---|---|---|
| AllAges.DefaultAgeGroup | app_simulation_all_ages.py:103-111 | The preselected group is "25-55" unless saved inputs with an age are in use. Otherwise it is "25-55" exactly for ages 25..55, "56-69" exactly for 56..69, and "70+" for the rest. |
| AllAges.WholeAgeClassification | app_simulation_all_ages.py:103-123 | A saved whole age of at least 25 falls in a group whose minimum age it meets, and it falls in the highest such group. Each group's minimum age and default age are classified back into that group. |
| AllAges.TotalMonthlyIncomeExpanded | app_simulation_all_ages.py:153-155 | The income total is the sum of the seven monthly income lines. |
| AllAges.TotalAssetsExpanded | app_simulation_all_ages.py:209-210 | Total assets is IRA + savings + home + car + other investments. |
| AllAges.TotalLiabilitiesExpanded | app_simulation_all_ages.py:230-231 | Total liabilities is the sum of the five debts. |
| AllAges.InputTotalsBoundTheirLines | app_simulation_all_ages.py:153-231 | When no field is negative, each section total (income, expenses, assets, liabilities) is at least every line in it. |
| AllAges.EquityDecomposesNetWorth | app_simulation_all_ages.py:230-236 | Home equity + car equity + the other assets − the other debts = total assets − total liabilities. |
| AllAges.IrsDivisor | app_simulation_all_ages.py:267-275 | The table has an entry exactly for whole ages 25..92, and every entry is at least 10.2. |
| AllAges.Divisor | app_simulation_all_ages.py:326 | A whole age in 25..92 gets its table entry and every other age gets 10.2, so the divisor is always at least 10.2. |
| AllAges.YearCount | app_simulation_all_ages.py:285 | `int(sim_years)`: zero below 1, otherwise the whole part. |
| AllAges.AnnualSocialSecurity | app_simulation_all_ages.py:295-297 | Social security is non-zero only when the group is not "25-55" and the age is at least 62. In that case it is the monthly benefit, grown by the COLA `i` times, times 12. |
| AllAges.FirstYearIncomeIsAnnualisedTotal | app_simulation_all_ages.py:290-300 | In the first year, detailed income is 12 × the form's monthly total, less the social security line while it is not yet drawn. |
| AllAges.GrossBudgetOnlyExpensesGrow | app_simulation_all_ages.py:301-320 | With gross totals, every year's income equals the first year's, while every year's expenses are the first year's times the inflation factor to the power `i`. |
| AllAges.ExpensesAreInflatedMonthlyTotal | app_simulation_all_ages.py:306-320 | In both input styles, expenses are the monthly total × 12 × the inflation factor to the power `i`. |
| AllAges.TakeRmd | app_simulation_all_ages.py:322-329 | The RMD is zero exactly when the age is below 72 or the IRA is not positive. Otherwise it is IRA / divisor and lies strictly between 0 and the IRA. The net RMD is the RMD after RMD tax. |
| AllAges.CashFromSavings | app_simulation_all_ages.py:341-342 | The cash drawn is never negative and never below `net_draw − net_rmd`. It is zero exactly when `net_rmd` covers `net_draw`, and otherwise equals the difference. |
| AllAges.GrowAndDraw | app_simulation_all_ages.py:331-343 | The IRA left after the RMD is grown and savings are added to give the open balance. The open balance is grown again, then the cash is drawn. When the RMD covers the need, the end balance is the grown open balance and nothing is deposited. |
| AllAges.Allocate | app_simulation_all_ages.py:345-352 | The split keeps the total. A year-end balance at or below zero is all savings and zero IRA. Otherwise the IRA gets its proportional share, or zero when IRA + savings is at most zero. |
| AllAges.YearLedger | app_simulation_all_ages.py:336-352 | Within a row: growth = rate × open, open + growth = before draw, and before draw − cash = end. The next IRA and savings sum to the end balance, and an RMD that covers the need leaves the grown balance untouched. |
| AllAges.YearOpens | app_simulation_all_ages.py:327-338 | The open balance is the grown post-RMD IRA plus the savings carried in. |
| AllAges.YearRmd | app_simulation_all_ages.py:322-329 | A year's RMD is zero exactly before age 72 or with a non-positive IRA, and otherwise equals IRA / divisor. The net RMD is the RMD after tax. |
| AllAges.YearHomeAndNetWorth | app_simulation_all_ages.py:354-361 | The home grows by its appreciation. Net worth is the end balance + home + car + other investments − total liabilities. |
| AllAges.YearIraNonnegative | app_simulation_all_ages.py:322-352 | With a growth rate of at least −100%, a year never turns a non-negative IRA negative. |
| AllAges.IraCompoundsTwice | app_simulation_all_ages.py:331-338 | Before age 72, the balance before the draw is the IRA grown twice plus savings grown once. |
| AllAges.RowsShape | app_simulation_all_ages.py:283-287 | There are `int(sim_years)` rows, and row `k` has year 2025 + k and age `age + k`. |
| AllAges.Ledger | app_simulation_all_ages.py:336-376 | The ledger identities hold in every row. The IRA and savings entering the next year sum to this row's end balance. |
| AllAges.Continuity | app_simulation_all_ages.py:327-352 | Next year's open balance = this year's end − next year's RMD + growth on the IRA left after that RMD. |
| AllAges.RmdInRow | app_simulation_all_ages.py:322-371 | Every row's RMD follows the RMD rule, applied to the IRA entering that year. |
| AllAges.HomeAt | app_simulation_all_ages.py:282-356 | The home value entering year `k` is the starting value × (1 + appreciation)^k. |
| AllAges.HomeNeverFalls | app_simulation_all_ages.py:282-356 | With a non-negative home value and appreciation rate, the home value entering any year is at least the starting value. |
| AllAges.HomeAndNetWorth | app_simulation_all_ages.py:354-377 | Row `k`'s home value is the start × (1 + appreciation)^(k+1). Its net worth is the end balance + home + car + other investments − liabilities, with the same liabilities in every row. |
| AllAges.YearKeepsIraNonnegative | app_simulation_all_ages.py:322-352 | With a growth rate of at least −100%, the loop's year function keeps the IRA non-negative. |
| AllAges.IraNeverNegative | app_simulation_all_ages.py:280-352 | Starting from a non-negative IRA with growth of at least −100%, the IRA entering every year is non-negative. |
| AllAges.IterateCompoundsHome | app_simulation_all_ages.py:354-356 | Any year function that grows the home at a fixed rate compounds it over `k` passes. |
| AllAges.WithdrawRmd | app_simulation_all_ages.py:322-329 | The RMD block computes `TakeRmd` and leaves the IRA less the RMD. |
| AllAges.GrowCombined | app_simulation_all_ages.py:331-343 | The growth-and-draw block computes `GrowAndDraw`. |
| AllAges.Reallocate | app_simulation_all_ages.py:345-352 | The allocation block computes `Allocate`. |
| AllAges.SimulateYear | app_simulation_all_ages.py:286-379 | One pass of the loop computes `Step`'s next state and row. |
| AllAges.Simulate | app_simulation_all_ages.py:278-379 | The loop's rows are the projection's rows, with `int(sim_years)` of them and year and age counting up. |
| SingleMode.IrsDivisor | app_sharable_single_mode.py:42-46 | The table has an entry exactly for ages 73..92, and every entry is at least 10.8. There is no default. |
| SingleMode.RmdRules | app_sharable_single_mode.py:74-75 | No RMD outside 73..92. Inside that range, a positive IRA gives IRA / divisor, strictly between 0 and the IRA, and nothing from savings. Otherwise the RMD is savings / divisor, taken from savings. Never both, and never more than a non-negative balance. |
| SingleMode.Shortfall | app_sharable_single_mode.py:90-91 | The shortfall is never negative. It is zero exactly when the cash covers expenses, and otherwise equals expenses − cash. |
| SingleMode.Waterfall | app_sharable_single_mode.py:93-97 | IRA used = min(IRA, shortfall) and savings used = min(savings, the rest). Each account ends at max(0, balance − what it was asked to pay). Savings is drawn only once the IRA is 0. The draws total at most the shortfall, and exactly the shortfall if and only if savings ≥ 0 and IRA + savings ≥ shortfall. |
| SingleMode.YearRmdAndTaxes | app_sharable_single_mode.py:67-90 | In each year the RMD rules apply to the balances entering it. Income tax and RMD tax are the rates applied to their amounts, net + tax = gross, each net amount is the gross amount × (1 − rate) as the all-ages projector computes it, and cash = net income + net RMD. |
| SingleMode.YearWaterfall | app_sharable_single_mode.py:90-99 | Each year's shortfall and draws follow the shortfall and waterfall rules, applied to the grown balances. |
| SingleMode.YearBalances | app_sharable_single_mode.py:77-97 | Each account loses its RMD, grows, and loses its draw, and the result carries into the next year. For any inputs, neither balance is negative after the draw. |
| SingleMode.YearDrawsNonnegative | app_sharable_single_mode.py:74-99 | With non-negative balances and growth of at least −100%, the RMDs and draws are non-negative and the total used is at most the shortfall. |
| SingleMode.RowsShape | app_sharable_single_mode.py:49-51 | There are `years` rows. Row `k` has year start + k, first age + k, and a second age only when one was entered. |
| SingleMode.SecondPersonRule | app_sharable_single_mode.py:51-70 | With no second age, no row has one and income is the first person's social security plus rent. With a second age, row `k` shows that age + k and the second person's grown benefit is added. |
| SingleMode.BalancesNeverNegative | app_sharable_single_mode.py:52-97 | No row ends with a negative balance, so no year after the first starts with one. |
| SingleMode.RowRmdAndTaxes | app_sharable_single_mode.py:67-88 | In every row: no RMD outside 73..92; IRA / divisor from a positive entering IRA, else savings / divisor; never both. Each tax is its rate × its amount, net + tax = gross, and net = gross × (1 − rate). |
| SingleMode.RowWaterfall | app_sharable_single_mode.py:90-99 | In every row: the shortfall is ≥ 0, zero exactly when cash covers expenses, and otherwise expenses − cash. IRA used = min(IRA before draw, shortfall) and savings used = min(savings before draw, rest). Savings is drawn only once the IRA is 0. Total used ≤ shortfall, with equality exactly when savings before the draw is ≥ 0 and the two balances cover the shortfall. |
| SingleMode.DrawdownWithinShortfalls | app_sharable_single_mode.py:90-100 | With non-negative starting balances and growth of at least −100%, 0 ≤ total drawdown ≤ the sum of the shortfalls. |
| SingleMode.DrawdownIsSumOfDraws | app_sharable_single_mode.py:99-100 | The running drawdown is the sum of the per-year totals used. |
| SingleMode.DrawdownBounds | app_sharable_single_mode.py:99-100 | When every year draws between 0 and its shortfall, the drawdown lies between 0 and the sum of the shortfalls. |
| SingleMode.MarkerIsFirstYear | app_sharable_single_mode.py:102-107 | Each marker is the year of the first row meeting its condition (IRA ≤ 1, savings ≤ 1, shortfall > 0). It is unset exactly when no row meets the condition. |
| SingleMode.MarkerNeverOverwritten | app_sharable_single_mode.py:102-107 | Later years never change a marker that is already set. |
| SingleMode.WithdrawRmds | app_sharable_single_mode.py:74-78 | The RMD block computes `TakeRmds` and leaves each balance less its RMD. |
| SingleMode.DrawFromAccounts | app_sharable_single_mode.py:93-97 | The waterfall block computes `DrawShortfall`. |
| SingleMode.SimulateYear | app_sharable_single_mode.py:60-130 | One pass of the loop computes `Step`'s balances and row. |
| SingleMode.Simulate | app_sharable_single_mode.py:48-130 | The loop's table is the projection's rows. Its drawdown is the sum of the totals used. Each of the three markers is the first year meeting its condition. |

## Left out
- The Streamlit widgets, tabs, session-state resets and password gate are left out as UI. Their values become the parameters `Profile` and `Inputs`.
- The slider and number-input bounds (rates from 0, at least 1 simulated year) are not enforced on the parameters. Lemmas that need a bound, such as growth of at least −100% or non-negative starting balances, require it explicitly.
- Saving, loading and clearing inputs in the JSON file are file I/O and left out. The saved age reaches `DefaultAgeGroup` as a parameter.
- The OpenAI client and its summary, question and optimisation prompts are foreign network calls and left out.
- Charts, data-frame display, `usd` formatting and CSV download are presentation and left out. So is the dashboard's truthiness test on a marker, which would hide a year 0.
- `round(..., 2)` in the row dictionaries is left out. Rows hold the unrounded values, because the scripts use rounding only for display.
- IEEE floating point is left out. Amounts are exact reals, so overflow, NaN and rounding error are not modelled.
- The all-ages `combined_balance` assignment before the loop (app_simulation_all_ages.py:279) is not modelled, because the loop overwrites it before reading it.
- Each loop body is modelled as `SimulateYear` plus small block methods (RMD, growth and draw, allocation, waterfall) instead of one inline body. The blocks run in the scripts' order, with two differences that change no value: `AllAges.SimulateYear` computes `net_draw` before the growth block instead of after it (app_simulation_all_ages.py:341), and the per-line income and expense statements (app_simulation_all_ages.py:291-320) are folded into `AnnualIncome` and `AnnualExpenses`.
- The Monte Carlo variant, goal-funding overlays, liability amortisation and partner RMD splitting are not in either script and are not part of this model.
