# Real-estate investment calculator: projection, scoring and market lookups

This project models three pieces of the rental-property calculator's logic in
Dafny.

- **The projection engine (calculator.js).**
  - `calculateSimple` and `calculateAdvanced` default and validate the form
    fields.
  - `performCalculations` derives the funding and operating figures and the
    fixed-rate mortgage payment.
  - It then runs a year loop with a nested twelve-month amortisation loop,
    pushing one snapshot per year held.
- **The market dashboard arithmetic (analytics.js).**
  - The investment score and the national averages.
  - The orderings of the markets table.
  - The chart colour palette.
- **The market-data helpers (marketData.js).**
  - The static market table.
  - The `MarketDataHelper` lookups over it, with their fallbacks and rounding.

Modules:
- `Wrappers` holds `Option` and `Result`.
- `JsMath` holds `Math.pow`, `Math.round`, `Math.min` and `Math.max` over
  exact reals.
- `Amortization` holds the annuity payment and the month recurrence.
- `Calculator` holds form defaulting, `PerformCalculations` and the projection
  properties.
- `MarketData` holds the table and the helpers.
- `Analytics` holds the score, the averages, the sorts and the colours.

Modelling choices:
- **Form fields.** Each field arrives parsed. `None` stands for an empty or
  unparsable field, since `parseFloat` gives NaN.
- **Defaults.** `x || d` replaces both `None` and `0` by `d`.
- **Mode.** The `mode` argument of `performCalculations` becomes the
  constructor of `Calculator.Inputs`.
- **Keyed tables.** JavaScript objects keyed by name become ordered lists of
  `MarketData.Entry`. Their keys therefore come out in table order, as
  `Object.keys` gives them.
- **The projection method.** `PerformCalculations` is proved against
  `Calculator.IsCalculationOf`. That predicate says each snapshot equals the
  closed form `Calculator.Snapshot` of its year.
- **Snapshot properties.** The lemmas about `Snapshot` prove the accounting
  identities, compounding, the running cash flow and the loan's behaviour.
- **The loops.** The twelve-month loop is the method
  `Calculator.AmortizeYear`. The year loop is the method `Calculator.Project`.
  In the source both sit inline in `performCalculations`; they keep the
  source's statements and order.
- **The year loop's bound.** The source runs the year loop while the integer
  year is at most the real holding period. The model runs it up to the
  holding period's floor, which gives the same iterations.
- **Sorting.** `Array.prototype.sort` is an in-place insertion sort on an
  array. It is proved to yield the comparator's order and the same rows. It
  is also proved stable: each group of equally ranked rows keeps its order.
  A ranked ordering that keeps every group's order is unique, so the order
  shown is fully determined.
- **Default arguments.** JavaScript default parameters become explicit
  arguments. The caller passes `"30year"` to `getMortgageRate`,
  `"Single Family"` as the property type of the two suggestion helpers,
  `"First-Time Buyer"` to `getFinancingSuggestions` and `1` as the opacity of
  `getChartColor`. For `getFinancingSuggestions` this changes nothing, because
  an unknown profile falls back to the first-time buyer's anyway.
- **Table constants.** `MarketData.Regions`, `MarketData.PropertyTypes` and
  `MarketData.BuyerProfiles` transcribe `marketDatabase` (marketData.js:56-261).
  They are constants, so the table below cites them through the lemmas about
  them: `MarketData.TableKeys`, `MarketData.TableNonNegative` and
  `MarketData.CondoMultipliers`.

## Model

| member | source | states |
|---|---|---|
| JsMath.Round | analytics.js:455 | `Math.round` yields the integer within one half of its argument, halves going up |
| JsMath.Pow | calculator.js:224 | `Math.pow` for a whole exponent, defined by repeated multiplication; `JsMath.PowBelowOne`, `JsMath.PowSquare` and `JsMath.PowAboveOne` state its properties |
| JsMath.PowBelowOne | calculator.js:224 | powers of a base in [0, 1) stay in [0, 1] and drop below one from the first power on |
| JsMath.PowSquare | calculator.js:224 | an even power is that power of the square |
| JsMath.RoundMonotone | marketData.js:329-331 | rounding never reverses the order of two numbers |
| JsMath.Min | analytics.js:450-452 | the cap is at most both arguments and is one of them |
| JsMath.Max | calculator.js:261 | the floor is at least both arguments and is one of them |
| Amortization.MonthlyPayment | calculator.js:222-224 | defined for every rate except 0% and −2400%; for a monthly rate of at least −100% the payment on a non-negative loan is at least the first month's interest; for a positive rate it is strictly more on a positive loan and less on a negative one |
| Amortization.GrowthIsOne | calculator.js:222-224 | the growth factor the payment divides by (less one) is one exactly for a rate of 0% or −2400%; it is above one for a positive rate and in [0, 1) for a rate between −1200% and 0% |
| Amortization.PaymentEquation | calculator.js:222-224 | for every rate the formula is defined at, the payment satisfies the annuity equation payment × (g − 1) = principal × r × g, with growth g ≠ 1 |
| Amortization.PaidOffAtTerm | calculator.js:222-224 | for every rate the formula is defined at, paying the annuity payment for the whole term leaves a balance of exactly zero |
| Amortization.PaymentsCoverPrincipal | calculator.js:222-224 | over the whole term the payments add up to at least the amount borrowed |
| Amortization.Balance | calculator.js:253-259 | the balance after a number of months of the month recurrence (interest = balance × rate, the rest of the payment is principal), with no floor at zero; `Amortization.ClosedForm`, `Amortization.MonthlyStep` and `Amortization.BalanceNeverRises` state its properties |
| Amortization.AmortizeTotals | calculator.js:251-259 | over any number of months, principal plus interest equals that many payments, and the balance has fallen by exactly the principal |
| Amortization.MonthlyStep | calculator.js:254-258 | one month's interest plus principal is the payment; the interest is balance × rate; the balance falls by the principal, strictly exactly when the payment exceeds the interest |
| Amortization.MonthStep | calculator.js:253-258 | one pass of the month loop over running figures that agree with k months (interest = balance × rate, principal = payment − interest) leaves figures that agree with k + 1 months |
| Amortization.BalanceCompose | calculator.js:243-259 | carrying the balance from one year into the next is the same as running all the months at once |
| Amortization.BalanceNeverRises | calculator.js:253-259 | for a monthly rate of at least −100%, once a payment covers a month's interest it covers every later month's, and the balance never rises |
| Amortization.BalanceNonIncreasing | calculator.js:253-259 | under that condition the balance after more months is never above the balance after fewer |
| Amortization.ClosedForm | calculator.js:253-259 | the carried balance equals the compound-interest closed form (multiplied through by the rate) |
| Calculator.OrElse | calculator.js:137 | `x \|\| d`: a missing or zero field takes the default; any other value is kept |
| Calculator.TermOrElse | calculator.js:139 | the same defaulting for the loan term |
| Calculator.SimpleInputsOf | calculator.js:135-147 | the simple form is rejected with its message exactly when price or rent is missing or zero; otherwise every field is the value or its listed default (20, 6.5, 30, 35) |
| Calculator.AdvancedInputsOf | calculator.js:154-176 | the advanced form is rejected with its message exactly when price, rent or down payment is missing or zero; otherwise every field is the value or its listed default |
| Calculator.FundingOf | calculator.js:185-207 | loan = price − down payment in both modes; investment = down payment + closing costs (+ repairs in advanced mode); simple mode's down payment is the percentage of the price and its closing costs are 3% |
| Calculator.OperatingOf | calculator.js:191-216 | simple mode's blended expenses, 5% vacancy, 1.2% tax and 0.45% insurance; advanced mode's vacancy-discounted rent, management as a share of rent, and maintenance as a yearly share of price spread over twelve months |
| Calculator.HorizonOf | calculator.js:195-219 | simple mode holds 10 years at 3% appreciation and 7% selling costs; advanced mode takes the inputs |
| Calculator.TotalMonthlyExpenses | calculator.js:226-233 | monthly outgoings beyond the mortgage are the blended expenses (simple) or tax and insurance twelfths plus management, maintenance and HOA (advanced) |
| Calculator.CapRate | calculator.js:238-240 | a cap rate exists exactly in advanced mode, and it is 100 × NOI / price |
| Calculator.AmortizeYear | calculator.js:251-259 | the month loop leaves the balance, principal and interest of twelve steps of the month recurrence |
| Calculator.PropertyValue | calculator.js:249 | the price compounded at the appreciation rate for a number of years; `Calculator.Compounding`, `Calculator.NoAppreciation` and `Calculator.ValueNeverFalls` state its properties |
| Calculator.YearRow | calculator.js:261-272 | one year's snapshot from the balance and cash-flow total carried out of that year; `Calculator.SnapshotAccounting` states its identities |
| Calculator.Snapshot | calculator.js:247-272 | year k's snapshot in closed form: the row for the balance after 12 × k months and k years of cash flow; `Calculator.Project` is proved to push exactly these |
| Calculator.CumulativeIsProduct | calculator.js:263-265 | adding the yearly cash flow k times gives k × the yearly cash flow |
| Calculator.Project | calculator.js:242-275 | the year loop yields exactly one snapshot per whole year held, in order, each equal to the closed form of its year |
| Calculator.Percentage | calculator.js:236 | a figure as a percentage of a non-zero base: the percentage times the base is 100 × the figure (the cash-on-cash return times the investment is 100 × the annual cash flow) |
| Calculator.PerformCalculations | calculator.js:182-282 | the result holds the derived figures, annual = 12 × monthly cash flow, cash-on-cash × investment = 100 × annual cash flow, one snapshot per year, and the totals from the last year |
| Calculator.SnapshotAccounting | calculator.js:261-272 | balance ≥ 0, equity + balance = value, cash flow = the annual cash flow, cumulative = year × annual, profit = value after selling costs − balance + cumulative − investment, roi × investment = 100 × profit |
| Calculator.CumulativeStep | calculator.js:264-265 | each year's cumulative cash flow is the previous year's plus one year's |
| Calculator.SnapshotValue | calculator.js:249 | every snapshot's value is the price compounded for its year |
| Calculator.Compounding | calculator.js:249 | each year's value is the previous year's grown by the appreciation rate |
| Calculator.NoAppreciation | calculator.js:249 | with 0% appreciation the value stays the purchase price |
| Calculator.ValueNeverFalls | calculator.js:249 | with non-negative appreciation a non-negative price never falls and never drops below the purchase price |
| Calculator.LoanBalanceNeverRises | calculator.js:253-261 | for a non-negative loan and a rate of at least −1200% a year, the reported balance never rises from one year to a later one |
| Calculator.PaidOffFromTerm | calculator.js:222-261 | for a non-negative loan and a rate of at least −1200% a year, the reported balance is zero from the end of the loan term on |
| Calculator.CalculationShape | calculator.js:246-279 | at least one snapshot, numbered 1, 2, …; ten in simple mode; totalROI × investment = 100 × finalProfit |
| Calculator.CalculateSimple | calculator.js:134-151 | an error with the simple message exactly when price or rent is missing; otherwise the calculation of the defaulted inputs |
| Calculator.CalculateAdvanced | calculator.js:153-180 | an error with the advanced message exactly when price, rent or down payment is missing; otherwise the calculation of the defaulted inputs |
| MarketData.Lookup | marketData.js:301-303 | `object[key]` is the value of the first entry with that key, and nothing exactly when no entry has it |
| MarketData.KeysLookup | marketData.js:404-412 | a key is listed by `Object.keys` exactly when looking it up finds something |
| MarketData.TableKeys | marketData.js:56-261 | the cities, property types and buyer profiles of the table, in table order |
| MarketData.TableNonNegative | marketData.js:56-237 | no price or rent in the table is negative, and every property-type multiplier is positive |
| MarketData.MortgageRate | marketData.js:289-298 | 5.62, 6.15, 5.85 and 6.75 for "15year", "fha", "va" and "jumbo"; 6.35 for any other key |
| MarketData.LocationData | marketData.js:301-303 | a city's figures exist exactly when the city is in the table, and are that city's entry |
| MarketData.NeighborhoodData | marketData.js:306-312 | null for an unknown city, otherwise the lookup in that city's neighbourhoods |
| MarketData.AvailableCities | marketData.js:404-406 | the table's cities in table order |
| MarketData.Neighborhoods | marketData.js:409-412 | empty for an unknown city, otherwise the city's neighbourhoods in table order |
| MarketData.NeighborhoodsListed | marketData.js:409-412 | a neighbourhood is listed for a city exactly when its figures can be looked up |
| MarketData.TypeMultiplier | marketData.js:327 | a known property type scales by its own price or rent multiplier, an unknown one by 1, and every multiplier is positive |
| MarketData.CondoMultipliers | marketData.js:230-236 | a condo scales a price by 0.85 and a rent by 0.9 |
| MarketData.BaseFigure | marketData.js:319-325 | the neighbourhood's median when a neighbourhood is named and known, the city's otherwise; `MarketData.BaseFigureChoice` and `MarketData.BaseNonNegative` state its properties |
| MarketData.Source | marketData.js:333 | "neighbourhood, city" when a neighbourhood is named, the city otherwise; it is the source of both suggestions (`MarketData.SuggestedPurchasePrice`, `MarketData.SuggestedRent`) |
| MarketData.Suggest | marketData.js:328-334 | each figure is within one half of the scaled base, or of the scaled base times its factor; the median is the base |
| MarketData.SuggestedPurchasePrice | marketData.js:315-335 | null exactly for an unknown city; otherwise the suggestion for the chosen base and the type's price multiplier, with factors 0.85 and 1.15 and source "neighbourhood, city" or the city |
| MarketData.SuggestedRent | marketData.js:338-358 | null exactly for an unknown city; otherwise the suggestion for the chosen base and the type's rent multiplier, with factors 0.9 and 1.1 |
| MarketData.BaseFigureChoice | marketData.js:320-325 | a named, known neighbourhood overrides the city median; an unnamed or unknown one falls back to it |
| MarketData.BaseNonNegative | marketData.js:343-348 | every base figure the table yields is non-negative |
| MarketData.BandOrdered | marketData.js:329-331 | for a non-negative base and multiplier, low ≤ suggested ≤ high |
| MarketData.PurchasePriceBand | marketData.js:329-331 | every suggested purchase price has low ≤ suggested ≤ high |
| MarketData.RentBand | marketData.js:352-354 | every suggested rent has low ≤ suggested ≤ high |
| MarketData.Share | marketData.js:369-371 | a percentage of an amount, rounded to within one half |
| MarketData.ExpenseEstimatesOf | marketData.js:361-376 | city tax and insurance rates for a known city, national 1.2 and 0.45 otherwise, maintenance always 1.0; each amount is its rate's share of the price, rounded |
| MarketData.MarketMetrics | marketData.js:379-396 | 8.5, 3.5, 3.0 and 5 for an unknown city, otherwise the city's four figures |
| MarketData.FinancingSuggestions | marketData.js:399-401 | the named profile when it exists, otherwise the first-time buyer's; the suggested down payment is one of 5, 10, 25 and 100 |
| Analytics.CapRateTerm | analytics.js:450 | at most 50 and at most ten points per percent, and equal to one of them |
| Analytics.GrowthTerm | analytics.js:451-452 | at most 15 and at most three points per percent, and equal to one of them |
| Analytics.VacancyTerm | analytics.js:453 | at least 0 and at least 20 − 2 × vacancy, equal to one of them, and at most 20 for a non-negative vacancy |
| Analytics.InvestmentScore | analytics.js:448-456 | the score is within one half of the sum of the four capped terms |
| Analytics.ScoreBounds | analytics.js:450-455 | at most 100 for a non-negative vacancy; not negative when all four figures are non-negative |
| Analytics.ScoreAboveHundred | analytics.js:453 | a negative vacancy lifts the score past 100: 5, 5, 5 and −10 score 120 |
| Analytics.TableScoresInRange | analytics.js:448-456 | every market of the table scores between 0 and 100 |
| Analytics.ScoreMonotone | analytics.js:450-455 | the score never falls as cap rate, appreciation or rent growth rise or vacancy falls |
| Analytics.ScoreExample | analytics.js:448-456 | 8.5, 3.5, 3.0 and 5.2 score 50 + 10.5 + 9 + 9.6 = 79.1, rounded to 79 |
| Analytics.Values | analytics.js:105 | `Object.values` lists the values in table order |
| Analytics.Sum | analytics.js:107-114 | the `reduce` adding one figure from the first region to the last; `Analytics.SumBounds` states its bounds |
| Analytics.SumBounds | analytics.js:107-114 | a sum of figures each within [lo, hi] lies within [n × lo, n × hi] |
| Analytics.MeanBounds | analytics.js:104-116 | an average lies within any bounds of the figures averaged |
| Analytics.NationalAverages | analytics.js:104-116 | every national average times the number of regions is that figure's sum over the table |
| Analytics.NationalAverageBounds | analytics.js:104-116 | each national average lies between the lowest and highest regional figure |
| Analytics.Rows | analytics.js:419-425 | one row per region, in table order, each with its name, figures and score |
| Analytics.OrderOf | analytics.js:468-481 | exactly the keys "capRate", "appreciation", "rentGrowth" and "affordability" select an order |
| Analytics.SortRows | analytics.js:428 | after the sort the rows run from the highest rank to the lowest, are a permutation of the rows before, and keep equally ranked rows in their order before (stability) |
| Analytics.Insert | analytics.js:470-479 | one insertion step extends the ranked prefix by one row, keeps the rows and keeps equally ranked rows in order |
| Analytics.SwapKeepsTies | analytics.js:470-479 | swapping two neighbouring rows of different rank keeps every group of equally ranked rows in order |
| Analytics.SortedTiesUnique | analytics.js:468-481 | two ranked orderings that keep every group of equally ranked rows in the same order are the same ordering |
| Analytics.PopulateMarketsTable | analytics.js:417-428 | the markets with scores, by cap rate highest first, a permutation of the regions, with ties in table order |
| Analytics.SortTable | analytics.js:458-481 | a known key ranks the markets by that order, with ties in table order, and any other key leaves table order; always a permutation of the regions |
| Analytics.AffordabilityAscending | analytics.js:479 | ranked by affordability, median prices rise from first to last |
| Analytics.Palette | analytics.js:522-528 | five colours, each at the requested opacity |
| Analytics.TruncatedRemainder | analytics.js:529 | JavaScript's `%`: the usual remainder for a non-negative index, a non-positive remainder above −n for a negative one |
| Analytics.ChartColor | analytics.js:521-530 | a non-negative index picks colours[index mod 5]; a negative index yields a colour only for a multiple of 5; any colour comes from the palette with the requested opacity |
| Analytics.ChartColorPeriodic | analytics.js:529 | colours repeat every five indices |
| Analytics.ChartColorsDistinct | analytics.js:522-528 | the first five indices get five different colours |

## Left out

- **Form handling.**
  - DOM reading, the regex clean-up and `parseFloat` text parsing. Fields arrive already parsed.
  - The down-payment sync handlers.
  - `alert`: the error becomes an `Err` result.
  - `displayResults`, the charts, the breakdown table, theme handling and currency formatting.
- **analytics.js UI code.**
  - Chart construction and updates, insights and HTML generation.
  - `generateReport` (clock and string templating), `downloadReport`, `exportToCalculator` (storage and navigation), `refreshData` and the notifications.
  - The HTML rows `populateMarketsTable` and `sortTable` render. The model returns the ordered rows.
- **smartSuggestions.js.** It is a DOM panel with event listeners, storage, geolocation and timers. It only re-displays the helpers' results. smartSuggestions.js is not part of this model.
- **Unread table parts.** `formatCurrency` and `formatPercent` in marketData.js (locale formatting) are out. So are the parts of the table no modelled helper reads: the mortgage rate history, trend and date, the down-payment table, and `marketIndicators`.
- **IEEE-754 arithmetic.** The model uses exact reals, with no NaN, no Infinity and no rounding error in intermediate results. The degenerate inputs are excluded by precondition (`Calculator.Computable`) rather than modelled:
  - an interest rate of 0% or −2400%, where the mortgage formula divides by zero (`Amortization.GrowthIsOne`). Any other rate, negative ones included, gives a finite payment and is modelled;
  - a zero purchase price or zero cash investment, which the source divides by;
  - a holding period below one year, where the source reads the last snapshot of an empty list.
- **Simple-mode cap rate.** It is `None`, because the source reads the unset maintenance figure and gets NaN.
- **Simple-mode initial repairs.** They are 0. The source leaves the field unset, and simple mode never reads it.
- **Loan term.** It is a whole, non-negative number of years. A fractional or negative term, which `parseFloat` would let through, is not modelled, because `Math.pow` with such an exponent has no counterpart over exact reals.
- **Omitted arguments.** Calling a helper without its trailing arguments is not modelled. Every argument is explicit, and callers pass the JavaScript defaults (`loanType = '30year'`, `propertyType = 'Single Family'`, `buyerType = 'First-Time Buyer'`, `alpha = 1`) themselves, as described above.
- **Neighbourhood argument.** The empty string stands for the `null` default. JavaScript treats `null` and `""` alike in the `neighborhood ?` test.
- **Object keys.** Keys inherited from `Object.prototype` (such as `"constructor"`) are not modelled. In the source they would make `regions[key]` truthy for a name that is not a city.
- **Behaviour followed as written in calculator.js.** Each point below is one where a cleaner design might be expected:
  - A 0% interest rate is not given the payment principal / n; the code divides 0 by 0, so the model excludes that input.
  - `|| default` overrides a deliberate zero, so 0% vacancy becomes 5%. The model keeps that; it does not add explicit presence checks.
  - Simple mode's vacancy rate is 5 (calculator.js:198), although it plays no part in simple mode's expenses.
  - A zero cash investment has no dedicated "undefined return" outcome; it is excluded by precondition.
- Calculator.CalculateSimple, Calculator.CalculateAdvanced: these require the defaulted inputs to satisfy `Calculator.Computable`. The source makes no such demand. Where the model has a precondition, the source divides by zero and gets NaN or an infinity, or it reads the last snapshot of an empty list and throws.
- Calculator.LoanBalanceNeverRises, Calculator.PaidOffFromTerm: proved for rates of at least −1200% a year, which keeps the monthly factor 1 + r non-negative. Below that the balance changes sign from month to month, and these properties are not claimed there.
- Amortization.PaymentsCoverPrincipal: proved for positive rates only. Under a negative rate the payments add up to less than the amount borrowed.
- Analytics.ScoreBounds: the 100-point ceiling is proved for a non-negative vacancy rate only. The vacancy term is floored at 0 but not capped at 20, so a negative vacancy exceeds 100 (`Analytics.ScoreAboveHundred`). Every market in the table has a non-negative vacancy rate (`Analytics.TableScoresInRange`).
- Analytics.ChartColor: colours are records of their four numbers, not the `rgba(...)` strings the source builds.
