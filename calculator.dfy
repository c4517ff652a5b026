/**
 * The rental-property projection of calculator.js: the defaulting and
 * validation of the two input forms (calculateSimple, calculateAdvanced) and
 * performCalculations, which derives the funding and operating figures and
 * then runs a year loop with a nested twelve-month amortisation loop.
 *
 * The `mode` argument of performCalculations is the constructor of `Inputs`.
 */
module Calculator {
  import opened Wrappers
  import opened JsMath
  import opened Amortization

  // ---------------------------------------------------------------------------
  // Form fields and their defaults (calculator.js:134-180)
  // ---------------------------------------------------------------------------

  /**
   * JavaScript treats a form value `x` in `x || d` as missing when it is NaN
   * (empty or unparsable, `None` here) or zero.
   */
  predicate Blank<T(==)>(field: Option<T>, zero: T)
  {
    field.None? || field.value == zero
  }

  /** `parseFloat(...) || default` */
  function OrElse(field: Option<real>, default: real): (r: real)
    ensures Blank(field, 0.0) ==> r == default
    ensures !Blank(field, 0.0) ==> r == field.value
  {
    if Blank(field, 0.0) then default else field.value
  }

  /** `parseFloat(...) || default` for the loan term, a whole number of years. */
  function TermOrElse(field: Option<nat>, default: nat): (r: nat)
    ensures Blank(field, 0) ==> r == default
    ensures !Blank(field, 0) ==> r == field.value
  {
    if Blank(field, 0) then default else field.value
  }

  /** The simple form as parsed: `None` for a field left empty or not a number. */
  datatype SimpleForm = SimpleForm(
    purchasePrice: Option<real>,
    downPaymentPercent: Option<real>,
    interestRate: Option<real>,
    loanTerm: Option<nat>,
    monthlyRent: Option<real>,
    annualExpensesPercent: Option<real>)

  /** The advanced form as parsed: `None` for a field left empty or not a number. */
  datatype AdvancedForm = AdvancedForm(
    purchasePrice: Option<real>,
    downPaymentAmount: Option<real>,
    closingCostPercent: Option<real>,
    initialRepairs: Option<real>,
    interestRate: Option<real>,
    loanTerm: Option<nat>,
    monthlyRent: Option<real>,
    vacancyRate: Option<real>,
    propertyTax: Option<real>,
    insurance: Option<real>,
    managementFeePercent: Option<real>,
    maintenancePercent: Option<real>,
    hoaFees: Option<real>,
    holdingPeriod: Option<real>,
    appreciationRate: Option<real>,
    sellingCostPercent: Option<real>)

  /** The `inputs` record handed to performCalculations, one constructor per mode. */
  datatype Inputs =
    | SimpleInputs(
        purchasePrice: real,
        downPaymentPercent: real,
        interestRate: real,
        loanTerm: nat,
        monthlyRent: real,
        annualExpensesPercent: real)
    | AdvancedInputs(
        purchasePrice: real,
        downPaymentAmount: real,
        closingCostPercent: real,
        initialRepairs: real,
        interestRate: real,
        loanTerm: nat,
        monthlyRent: real,
        vacancyRate: real,
        propertyTax: real,
        insurance: real,
        managementFeePercent: real,
        maintenancePercent: real,
        hoaFees: real,
        holdingPeriod: real,
        appreciationRate: real,
        sellingCostPercent: real)

  const SimpleMissingMessage: string := "Please fill in the Purchase Price and Monthly Rent"
  const AdvancedMissingMessage: string := "Please fill in the Purchase Price, Down Payment, and Monthly Rent"

  /**
   * calculateSimple up to the call of performCalculations: every field takes
   * its default when missing or zero, and the form is rejected exactly when the
   * purchase price or the monthly rent is missing or zero.
   */
  function SimpleInputsOf(form: SimpleForm): (r: Result<Inputs, string>)
    ensures r.Err? <==> Blank(form.purchasePrice, 0.0) || Blank(form.monthlyRent, 0.0)
    ensures r.Err? ==> r.error == SimpleMissingMessage
    ensures r.Ok? ==> (
      && r.value.SimpleInputs?
      && r.value.purchasePrice == form.purchasePrice.value != 0.0
      && r.value.monthlyRent == form.monthlyRent.value != 0.0
      && r.value.downPaymentPercent == OrElse(form.downPaymentPercent, 20.0)
      && r.value.interestRate == OrElse(form.interestRate, 6.5)
      && r.value.loanTerm == TermOrElse(form.loanTerm, 30) >= 1
      && r.value.annualExpensesPercent == OrElse(form.annualExpensesPercent, 35.0))
  {
    var inputs := SimpleInputs(
      OrElse(form.purchasePrice, 0.0),
      OrElse(form.downPaymentPercent, 20.0),
      OrElse(form.interestRate, 6.5),
      TermOrElse(form.loanTerm, 30),
      OrElse(form.monthlyRent, 0.0),
      OrElse(form.annualExpensesPercent, 35.0));
    if inputs.purchasePrice == 0.0 || inputs.monthlyRent == 0.0 then Err(SimpleMissingMessage)
    else Ok(inputs)
  }

  /**
   * calculateAdvanced up to the call of performCalculations: every field takes
   * its default when missing or zero, and the form is rejected exactly when the
   * purchase price, the monthly rent or the down payment is missing or zero.
   */
  function AdvancedInputsOf(form: AdvancedForm): (r: Result<Inputs, string>)
    ensures r.Err? <==> Blank(form.purchasePrice, 0.0) || Blank(form.monthlyRent, 0.0)
                        || Blank(form.downPaymentAmount, 0.0)
    ensures r.Err? ==> r.error == AdvancedMissingMessage
    ensures r.Ok? ==> (
      && r.value.AdvancedInputs?
      && r.value.purchasePrice == form.purchasePrice.value != 0.0
      && r.value.monthlyRent == form.monthlyRent.value != 0.0
      && r.value.downPaymentAmount == form.downPaymentAmount.value != 0.0
      && r.value.closingCostPercent == OrElse(form.closingCostPercent, 3.0)
      && r.value.initialRepairs == OrElse(form.initialRepairs, 0.0)
      && r.value.interestRate == OrElse(form.interestRate, 6.5)
      && r.value.loanTerm == TermOrElse(form.loanTerm, 30) >= 1
      && r.value.vacancyRate == OrElse(form.vacancyRate, 5.0)
      && r.value.propertyTax == OrElse(form.propertyTax, 0.0)
      && r.value.insurance == OrElse(form.insurance, 0.0)
      && r.value.managementFeePercent == OrElse(form.managementFeePercent, 0.0)
      && r.value.maintenancePercent == OrElse(form.maintenancePercent, 1.0)
      && r.value.hoaFees == OrElse(form.hoaFees, 0.0)
      && r.value.holdingPeriod == OrElse(form.holdingPeriod, 10.0)
      && r.value.appreciationRate == OrElse(form.appreciationRate, 3.0)
      && r.value.sellingCostPercent == OrElse(form.sellingCostPercent, 7.0))
  {
    var inputs := AdvancedInputs(
      OrElse(form.purchasePrice, 0.0),
      OrElse(form.downPaymentAmount, 0.0),
      OrElse(form.closingCostPercent, 3.0),
      OrElse(form.initialRepairs, 0.0),
      OrElse(form.interestRate, 6.5),
      TermOrElse(form.loanTerm, 30),
      OrElse(form.monthlyRent, 0.0),
      OrElse(form.vacancyRate, 5.0),
      OrElse(form.propertyTax, 0.0),
      OrElse(form.insurance, 0.0),
      OrElse(form.managementFeePercent, 0.0),
      OrElse(form.maintenancePercent, 1.0),
      OrElse(form.hoaFees, 0.0),
      OrElse(form.holdingPeriod, 10.0),
      OrElse(form.appreciationRate, 3.0),
      OrElse(form.sellingCostPercent, 7.0));
    if inputs.purchasePrice == 0.0 || inputs.monthlyRent == 0.0 || inputs.downPaymentAmount == 0.0 then
      Err(AdvancedMissingMessage)
    else Ok(inputs)
  }

  // ---------------------------------------------------------------------------
  // The figures performCalculations derives before its year loop
  // (calculator.js:185-240)
  // ---------------------------------------------------------------------------

  /** What the purchase costs and how it is paid for. */
  datatype Funding = Funding(
    purchasePrice: real,
    downPayment: real,
    loanAmount: real,
    closingCosts: real,
    initialRepairs: real,
    initialInvestment: real)

  /**
   * The funding profile: the loan is the price less the down payment in both
   * modes; the cash put in is the down payment, the closing costs and (advanced
   * mode only) the initial repairs.
   */
  function FundingOf(inputs: Inputs): (f: Funding)
    ensures f.purchasePrice == inputs.purchasePrice
    ensures f.loanAmount == f.purchasePrice - f.downPayment
    ensures f.initialInvestment == f.downPayment + f.closingCosts + f.initialRepairs
    ensures inputs.SimpleInputs? ==>
      && f.downPayment == inputs.purchasePrice * inputs.downPaymentPercent / 100.0
      && f.closingCosts == inputs.purchasePrice * 0.03
      && f.initialRepairs == 0.0
    ensures inputs.AdvancedInputs? ==>
      && f.downPayment == inputs.downPaymentAmount
      && f.closingCosts == inputs.purchasePrice * inputs.closingCostPercent / 100.0
      && f.initialRepairs == inputs.initialRepairs
  {
    match inputs
    case SimpleInputs(price, downPaymentPercent, _, _, _, _) =>
      var downPayment := price * downPaymentPercent / 100.0;
      var closingCosts := price * 0.03;
      Funding(price, downPayment, price - downPayment, closingCosts, 0.0, downPayment + closingCosts)
    case AdvancedInputs(price, downPayment, closingCostPercent, repairs, _, _, _, _, _, _, _, _, _, _, _, _) =>
      var closingCosts := price * closingCostPercent / 100.0;
      Funding(price, downPayment, price - downPayment, closingCosts, repairs, downPayment + closingCosts + repairs)
  }

  /** Rent and running costs, itemised differently in the two modes. */
  datatype Operating =
    | SimpleOperating(
        monthlyRent: real,
        annualRent: real,
        annualExpenses: real,
        monthlyExpenses: real,
        vacancyRate: real,
        propertyTax: real,
        insurance: real)
    | AdvancedOperating(
        monthlyRent: real,
        vacancyRate: real,
        effectiveMonthlyRent: real,
        annualRent: real,
        propertyTax: real,
        insurance: real,
        managementFee: real,
        maintenance: real,
        hoaFees: real)

  /**
   * The operating profile.  Simple mode charges one blended expense ratio on
   * the full rent and fixes tax at 1.2% and insurance at 0.45% of the price;
   * advanced mode discounts the rent for vacancy and itemises the costs, with
   * management a share of the monthly rent and maintenance a yearly share of
   * the price spread over twelve months.
   */
  function OperatingOf(inputs: Inputs): (o: Operating)
    ensures o.monthlyRent == inputs.monthlyRent
    ensures inputs.SimpleInputs? ==> (
      && o.SimpleOperating?
      && o.annualRent == 12.0 * inputs.monthlyRent
      && o.annualExpenses == o.annualRent * inputs.annualExpensesPercent / 100.0
      && 12.0 * o.monthlyExpenses == o.annualExpenses
      && o.vacancyRate == 5.0
      && o.propertyTax == inputs.purchasePrice * 0.012
      && o.insurance == inputs.purchasePrice * 0.0045)
    ensures inputs.AdvancedInputs? ==> (
      && o.AdvancedOperating?
      && o.vacancyRate == inputs.vacancyRate
      && o.effectiveMonthlyRent == inputs.monthlyRent * (1.0 - inputs.vacancyRate / 100.0)
      && o.annualRent == 12.0 * o.effectiveMonthlyRent
      && o.propertyTax == inputs.propertyTax
      && o.insurance == inputs.insurance
      && o.managementFee == inputs.monthlyRent * inputs.managementFeePercent / 100.0
      && 12.0 * o.maintenance == inputs.purchasePrice * inputs.maintenancePercent / 100.0
      && o.hoaFees == inputs.hoaFees)
  {
    match inputs
    case SimpleInputs(price, _, _, _, rent, expensesPercent) =>
      var annualRent := rent * 12.0;
      var annualExpenses := annualRent * expensesPercent / 100.0;
      SimpleOperating(rent, annualRent, annualExpenses, annualExpenses / 12.0, 5.0, price * 0.012, price * 0.0045)
    case AdvancedInputs(price, _, _, _, _, _, rent, vacancy, tax, insurance, managementPercent, maintenancePercent,
                        hoa, _, _, _) =>
      var effectiveRent := rent * (1.0 - vacancy / 100.0);
      AdvancedOperating(rent, vacancy, effectiveRent, effectiveRent * 12.0, tax, insurance,
                        rent * managementPercent / 100.0, price * maintenancePercent / 100.0 / 12.0, hoa)
  }

  /** How long the property is held and what selling it costs. */
  datatype Horizon = Horizon(holdingPeriod: real, appreciationRate: real, sellingCostPercent: real)

  /** Simple mode holds for 10 years at 3% appreciation and 7% selling costs; advanced mode asks. */
  function HorizonOf(inputs: Inputs): (h: Horizon)
    ensures inputs.SimpleInputs? ==> h == Horizon(10.0, 3.0, 7.0)
    ensures inputs.AdvancedInputs? ==>
      h == Horizon(inputs.holdingPeriod, inputs.appreciationRate, inputs.sellingCostPercent)
  {
    match inputs
    case SimpleInputs(_, _, _, _, _, _) => Horizon(10.0, 3.0, 7.0)
    case AdvancedInputs(_, _, _, _, _, _, _, _, _, _, _, _, _, holding, appreciation, selling) =>
      Horizon(holding, appreciation, selling)
  }

  /** The rent the cash flow is measured against: gross in simple mode, after vacancy in advanced mode. */
  function RentBasis(o: Operating): real
  {
    if o.SimpleOperating? then o.monthlyRent else o.effectiveMonthlyRent
  }

  /**
   * Monthly outgoings: the mortgage plus, in simple mode, the blended expenses,
   * and in advanced mode a twelfth of the yearly tax and insurance plus the
   * monthly management, maintenance and HOA fees.
   */
  function TotalMonthlyExpenses(o: Operating, mortgage: real): (t: real)
    ensures o.SimpleOperating? ==> t - mortgage == o.monthlyExpenses
    ensures o.AdvancedOperating? ==>
      t - mortgage == (o.propertyTax + o.insurance) / 12.0 + o.managementFee + o.maintenance + o.hoaFees
  {
    if o.SimpleOperating? then mortgage + o.monthlyExpenses
    else mortgage + o.propertyTax / 12.0 + o.insurance / 12.0 + o.managementFee + o.maintenance + o.hoaFees
  }

  /**
   * The cap rate, net operating income over price as a percentage.  Only
   * advanced mode has one: simple mode never sets the maintenance figure the
   * formula reads, so its cap rate is not a number.
   */
  function CapRate(o: Operating, price: real): (c: Option<real>)
    requires price != 0.0
    ensures c.Some? <==> o.AdvancedOperating?
    ensures c.Some? ==>
      c.value * price == 100.0 * (o.annualRent - 12.0 * (o.propertyTax / 12.0 + o.insurance / 12.0
                                                          + o.maintenance + o.managementFee + o.hoaFees))
  {
    if o.SimpleOperating? then None
    else
      var annualNOI := o.annualRent - (o.propertyTax + o.insurance + o.maintenance * 12.0
                                       + (o.managementFee * 12.0 + o.hoaFees * 12.0));
      Some(annualNOI / price * 100.0)
  }

  // ---------------------------------------------------------------------------
  // The projection (calculator.js:242-279)
  // ---------------------------------------------------------------------------

  /** One year of the projection, as pushed onto `result.yearlyData`. */
  datatype YearSnapshot = YearSnapshot(
    year: nat,
    propertyValue: real,
    loanBalance: real,
    equity: real,
    cashFlow: real,
    cumulativeCashFlow: real,
    profitIfSold: real,
    roiIfSold: real)

  /** Everything the year loop reads. */
  datatype Projection = Projection(
    purchasePrice: real,
    loanAmount: real,
    monthlyMortgage: real,
    monthlyRate: real,
    appreciationRate: real,
    sellingCostPercent: real,
    annualCashFlow: real,
    initialInvestment: real)

  /** The price compounded at the yearly appreciation rate (in percent) for `year` years. */
  function PropertyValue(purchasePrice: real, appreciationRate: real, year: nat): real
  {
    purchasePrice * Pow(1.0 + appreciationRate / 100.0, year)
  }

  /**
   * The snapshot the year loop pushes for `year`, given the loan balance and
   * the cash-flow total it carries out of that year: the price compounded for
   * `year` years, the balance reported as 0 once it would be negative, and
   * the profit and return if the property were sold at the end of the year.
   */
  function YearRow(p: Projection, year: nat, balance: real, total: real): YearSnapshot
    requires p.initialInvestment != 0.0
  {
    var propertyValue := PropertyValue(p.purchasePrice, p.appreciationRate, year);
    var loanBalance := Max(0.0, balance);
    var sellingCosts := propertyValue * p.sellingCostPercent / 100.0;
    var profit := propertyValue - loanBalance - sellingCosts + total - p.initialInvestment;
    YearSnapshot(year, propertyValue, loanBalance, propertyValue - loanBalance, p.annualCashFlow,
                 total, profit, profit / p.initialInvestment * 100.0)
  }

  /** A snapshot assembled field by field as the year loop does it is the year's row. */
  lemma RowOfFields(p: Projection, year: nat, balance: real, total: real, propertyValue: real,
                    loanBalance: real, sellingCosts: real, totalProfit: real)
    requires p.initialInvestment != 0.0
    requires propertyValue == PropertyValue(p.purchasePrice, p.appreciationRate, year)
    requires loanBalance == Max(0.0, balance)
    requires sellingCosts == propertyValue * p.sellingCostPercent / 100.0
    requires totalProfit == propertyValue - loanBalance - sellingCosts + total - p.initialInvestment
    ensures YearRow(p, year, balance, total)
            == YearSnapshot(year, propertyValue, loanBalance, propertyValue - loanBalance, p.annualCashFlow,
                            total, totalProfit, totalProfit / p.initialInvestment * 100.0)
  {
  }

  /**
   * Year `year` of the projection in closed form: the loan after `12 * year`
   * payments and `year` years of the same cash flow.
   */
  function Snapshot(p: Projection, year: nat): YearSnapshot
    requires p.initialInvestment != 0.0
  {
    YearRow(p, year, Balance(p.loanAmount, p.monthlyMortgage, p.monthlyRate, 12 * year),
            Cumulative(p.annualCashFlow, year))
  }

  /** The cash flow of `years` years, added up one year at a time as the year loop does. */
  function Cumulative(cashFlow: real, years: nat): real
  {
    if years == 0 then 0.0 else Cumulative(cashFlow, years - 1) + cashFlow
  }

  /** `years` years of the same cash flow add up to `years` times that cash flow. */
  lemma {:induction false} CumulativeIsProduct(cashFlow: real, years: nat)
    ensures Cumulative(cashFlow, years) == years as real * cashFlow
  {
    if years > 0 {
      CumulativeIsProduct(cashFlow, years - 1);
      assert (years - 1) as real * cashFlow + cashFlow == years as real * cashFlow;
    }
  }

  /**
   * The inputs on which performCalculations yields numbers: a term of at least
   * a year and a rate other than 0% and -2400% (for those the mortgage formula
   * divides by zero, see Amortization.GrowthIsOne), a non-zero price and cash
   * investment (they are divisors), and at least one year held (the result is
   * read from the last year).
   */
  predicate Computable(inputs: Inputs)
  {
    && inputs.interestRate != 0.0 && inputs.interestRate != -2400.0
    && inputs.loanTerm >= 1
    && inputs.purchasePrice != 0.0
    && FundingOf(inputs).initialInvestment != 0.0
    && HorizonOf(inputs).holdingPeriod >= 1.0
  }

  /** The parameters of the year loop for the given inputs. */
  function ProjectionOf(inputs: Inputs): (p: Projection)
    requires Computable(inputs)
    ensures p.initialInvestment != 0.0
  {
    var f := FundingOf(inputs);
    var o := OperatingOf(inputs);
    var h := HorizonOf(inputs);
    var mortgage := MonthlyPayment(f.loanAmount, inputs.interestRate, inputs.loanTerm);
    Projection(f.purchasePrice, f.loanAmount, mortgage, MonthlyRate(inputs.interestRate), h.appreciationRate,
               h.sellingCostPercent, (RentBasis(o) - TotalMonthlyExpenses(o, mortgage)) * 12.0, f.initialInvestment)
  }

  /**
   * The twelve-month loop of performCalculations (calculator.js:251-259):
   * each month the interest is the balance times the monthly rate, the rest of
   * the payment is principal, and the balance falls by that principal.  The
   * three figures are those of twelve steps of the month recurrence, so
   * Amortization.AmortizeTotals applies to them.
   */
  method AmortizeYear(opening: real, monthlyMortgage: real, monthlyRate: real)
    returns (closing: real, yearlyPrincipal: real, yearlyInterest: real)
    ensures closing == Balance(opening, monthlyMortgage, monthlyRate, 12)
    ensures yearlyPrincipal == PrincipalPaid(opening, monthlyMortgage, monthlyRate, 12)
    ensures yearlyInterest == InterestPaid(opening, monthlyMortgage, monthlyRate, 12)
  {
    var remainingLoanBalance := opening;
    yearlyPrincipal := 0.0;
    yearlyInterest := 0.0;
    var month := 1;
    while month <= 12
      invariant 1 <= month <= 13
      invariant remainingLoanBalance == Balance(opening, monthlyMortgage, monthlyRate, month - 1)
      invariant yearlyPrincipal == PrincipalPaid(opening, monthlyMortgage, monthlyRate, month - 1)
      invariant yearlyInterest == InterestPaid(opening, monthlyMortgage, monthlyRate, month - 1)
    {
      MonthStep(opening, monthlyMortgage, monthlyRate, month - 1, remainingLoanBalance, yearlyPrincipal, yearlyInterest);
      var monthlyInterest := remainingLoanBalance * monthlyRate;
      var monthlyPrincipal := monthlyMortgage - monthlyInterest;
      yearlyPrincipal := yearlyPrincipal + monthlyPrincipal;
      yearlyInterest := yearlyInterest + monthlyInterest;
      remainingLoanBalance := remainingLoanBalance - monthlyPrincipal;
      month := month + 1;
    }
    closing := remainingLoanBalance;
  }

  /**
   * The year loop of performCalculations (calculator.js:242-275): for each
   * year 1, 2, ... while the year is at most the holding period, compound the
   * property value, amortise twelve months against the carried loan balance,
   * add the year's cash flow to the carried total and push the year's
   * snapshot.  The snapshots are exactly the closed form of each year, one per
   * whole year held, in order.
   */
  method Project(p: Projection, lastYear: nat) returns (yearlyData: seq<YearSnapshot>)
    requires p.initialInvestment != 0.0
    ensures |yearlyData| == lastYear
    ensures forall i :: 0 <= i < |yearlyData| ==> yearlyData[i] == Snapshot(p, i + 1)
  {
    yearlyData := [];
    var remainingLoanBalance := p.loanAmount;
    var totalCashFlow := 0.0;
    var year: nat := 1;
    while year <= lastYear
      invariant 1 <= year <= lastYear + 1
      invariant |yearlyData| == year - 1
      invariant remainingLoanBalance == Balance(p.loanAmount, p.monthlyMortgage, p.monthlyRate, 12 * (year - 1))
      invariant totalCashFlow == Cumulative(p.annualCashFlow, year - 1)
      invariant forall i :: 0 <= i < |yearlyData| ==> yearlyData[i] == Snapshot(p, i + 1)
    {
      var propertyValue := PropertyValue(p.purchasePrice, p.appreciationRate, year);

      var closing, yearlyPrincipal, yearlyInterest := AmortizeYear(remainingLoanBalance, p.monthlyMortgage, p.monthlyRate);
      BalanceCompose(p.loanAmount, p.monthlyMortgage, p.monthlyRate, 12 * (year - 1), 12);
      remainingLoanBalance := closing;

      var loanBalance := Max(0.0, remainingLoanBalance);
      var equity := propertyValue - loanBalance;
      var cashFlow := p.annualCashFlow;
      totalCashFlow := totalCashFlow + cashFlow;

      var salePrice := propertyValue;
      var sellingCosts := salePrice * p.sellingCostPercent / 100.0;
      var netSaleProceeds := salePrice - loanBalance - sellingCosts;
      var totalProfit := netSaleProceeds + totalCashFlow - p.initialInvestment;
      var snapshot := YearSnapshot(year, propertyValue, loanBalance, equity, cashFlow, totalCashFlow,
                                   totalProfit, totalProfit / p.initialInvestment * 100.0);
      RowOfFields(p, year, remainingLoanBalance, totalCashFlow, propertyValue, loanBalance, sellingCosts,
                  totalProfit);
      yearlyData := yearlyData + [snapshot];
      assert forall i :: 0 <= i < |yearlyData| ==> yearlyData[i] == Snapshot(p, i + 1);
      year := year + 1;
    }
  }

  /** The `calc` record performCalculations returns. */
  datatype Calculation = Calculation(
    funding: Funding,
    operating: Operating,
    horizon: Horizon,
    monthlyMortgage: real,
    totalMonthlyExpenses: real,
    monthlyCashFlow: real,
    annualCashFlow: real,
    cashOnCashReturn: real,
    capRate: Option<real>,
    yearlyData: seq<YearSnapshot>,
    totalROI: real,
    finalProfit: real)

  /**
   * `calc` is what performCalculations returns for `inputs`: the derived
   * figures, one snapshot per whole year held, each equal to the closed form
   * for its year, and the totals read from the last year.
   */
  predicate IsCalculationOf(inputs: Inputs, result: Calculation)
    requires Computable(inputs)
  {
    var p := ProjectionOf(inputs);
    && result.funding == FundingOf(inputs)
    && result.operating == OperatingOf(inputs)
    && result.horizon == HorizonOf(inputs)
    && result.monthlyMortgage == p.monthlyMortgage
    && result.totalMonthlyExpenses == TotalMonthlyExpenses(result.operating, result.monthlyMortgage)
    && result.monthlyCashFlow == RentBasis(result.operating) - result.totalMonthlyExpenses
    && result.annualCashFlow == 12.0 * result.monthlyCashFlow == p.annualCashFlow
    && result.cashOnCashReturn == Percentage(result.annualCashFlow, result.funding.initialInvestment)
    && result.capRate == CapRate(result.operating, result.funding.purchasePrice)
    && |result.yearlyData| == result.horizon.holdingPeriod.Floor
    && (forall i :: 0 <= i < |result.yearlyData| ==> result.yearlyData[i] == Snapshot(p, i + 1))
    && result.totalROI == result.yearlyData[|result.yearlyData| - 1].roiIfSold
    && result.finalProfit == result.yearlyData[|result.yearlyData| - 1].profitIfSold
  }

  /** `(x / base) * 100`: `x` as a percentage of a non-zero `base`, so that the percentage times the base is a hundred times `x`. */
  function Percentage(x: real, base: real): (r: real)
    requires base != 0.0
    ensures r * base == x * 100.0
  {
    assert (x / base) * base == x;
    x / base * 100.0
  }

  /**
   * performCalculations: derive the funding and operating figures, the
   * mortgage payment, the cash flow, the cash-on-cash return and the cap rate,
   * run the year loop, and read the totals from its last year.
   */
  method PerformCalculations(inputs: Inputs) returns (result: Calculation)
    requires Computable(inputs)
    ensures IsCalculationOf(inputs, result)
  {
    var funding := FundingOf(inputs);
    var operating := OperatingOf(inputs);
    var horizon := HorizonOf(inputs);

    var monthlyRate := MonthlyRate(inputs.interestRate);
    var monthlyMortgage := MonthlyPayment(funding.loanAmount, inputs.interestRate, inputs.loanTerm);
    var totalMonthlyExpenses := TotalMonthlyExpenses(operating, monthlyMortgage);
    var monthlyCashFlow := RentBasis(operating) - totalMonthlyExpenses;
    var annualCashFlow := monthlyCashFlow * 12.0;
    var cashOnCashReturn := Percentage(annualCashFlow, funding.initialInvestment);
    var capRate := CapRate(operating, funding.purchasePrice);
    var p := Projection(funding.purchasePrice, funding.loanAmount, monthlyMortgage, monthlyRate,
                              horizon.appreciationRate, horizon.sellingCostPercent, annualCashFlow,
                              funding.initialInvestment);
    assert p == ProjectionOf(inputs);

    var yearlyData := Project(p, horizon.holdingPeriod.Floor);
    var finalYear := yearlyData[|yearlyData| - 1];
    result := Calculation(funding, operating, horizon, monthlyMortgage, totalMonthlyExpenses, monthlyCashFlow,
                        annualCashFlow, cashOnCashReturn, capRate, yearlyData, finalYear.roiIfSold,
                        finalYear.profitIfSold);
  }

  // ---------------------------------------------------------------------------
  // What the projection promises
  // ---------------------------------------------------------------------------

  /**
   * The accounting of one year: the reported balance is never negative, equity
   * and balance make up the property value, the cumulative cash flow is `year`
   * times the yearly one, the profit is the sale proceeds after selling costs
   * plus that cash flow less the cash put in, and the return is that profit as
   * a percentage of the cash put in.
   */
  lemma SnapshotAccounting(p: Projection, year: nat)
    requires p.initialInvestment != 0.0
    ensures var s := Snapshot(p, year);
      && s.year == year
      && s.loanBalance >= 0.0
      && s.equity + s.loanBalance == s.propertyValue
      && s.cashFlow == p.annualCashFlow
      && s.cumulativeCashFlow == year as real * p.annualCashFlow
      && s.profitIfSold == s.propertyValue * (1.0 - p.sellingCostPercent / 100.0) - s.loanBalance
                           + s.cumulativeCashFlow - p.initialInvestment
      && s.roiIfSold * p.initialInvestment == s.profitIfSold * 100.0
  {
    CumulativeIsProduct(p.annualCashFlow, year);
  }

  /** The cumulative cash flow of a year is that of the year before plus one year's cash flow. */
  lemma CumulativeStep(p: Projection, year: nat)
    requires p.initialInvestment != 0.0 && year >= 1
    ensures Snapshot(p, year).cumulativeCashFlow == Snapshot(p, year - 1).cumulativeCashFlow + p.annualCashFlow
  {
  }

  /** Each year the property value is the previous year's value grown by the appreciation rate. */
  lemma Compounding(price: real, appreciationRate: real, year: nat)
    ensures PropertyValue(price, appreciationRate, year + 1)
            == PropertyValue(price, appreciationRate, year) * (1.0 + appreciationRate / 100.0)
  {
    var x := 1.0 + appreciationRate / 100.0;
    assert Pow(x, year + 1) == x * Pow(x, year);
    Rearrange(price, x, Pow(x, year));
  }

  lemma Rearrange(a: real, b: real, c: real)
    ensures a * (b * c) == (a * c) * b
  {
  }

  /** Without appreciation the property is worth its purchase price in every year. */
  lemma NoAppreciation(price: real, year: nat)
    ensures PropertyValue(price, 0.0, year) == price
  {
    PowOne(year);
  }

  /** With non-negative appreciation a non-negative price never falls from one year to the next. */
  lemma ValueNeverFalls(price: real, appreciationRate: real, year: nat)
    requires appreciationRate >= 0.0 && price >= 0.0
    ensures PropertyValue(price, appreciationRate, year + 1) >= PropertyValue(price, appreciationRate, year) >= price
  {
    var x := 1.0 + appreciationRate / 100.0;
    PowAtLeastOne(x, year);
    MulMonotone(Pow(x, year), Pow(x, year + 1), price);
    MulMonotone(1.0, Pow(x, year), price);
  }

  /** The property value of every snapshot is the price compounded for that snapshot's year. */
  lemma SnapshotValue(p: Projection, year: nat)
    requires p.initialInvestment != 0.0
    ensures Snapshot(p, year).propertyValue == PropertyValue(p.purchasePrice, p.appreciationRate, year)
  {
  }

  /**
   * When the amount borrowed is not negative and the monthly rate is at least
   * -100%, the reported loan balance never rises from one year to a later one:
   * every payment covers at least the month's interest.
   */
  lemma LoanBalanceNeverRises(inputs: Inputs, earlier: nat, later: nat)
    requires Computable(inputs)
    requires FundingOf(inputs).loanAmount >= 0.0 && inputs.interestRate >= -1200.0
    requires earlier <= later
    ensures var p := ProjectionOf(inputs);
      Snapshot(p, later).loanBalance <= Snapshot(p, earlier).loanBalance
  {
    var p := ProjectionOf(inputs);
    BalanceNonIncreasing(p.loanAmount, p.monthlyMortgage, p.monthlyRate, 12 * earlier, 12 * later);
  }

  /**
   * From the end of the loan term on, the reported loan balance is zero: the
   * annuity payment clears the loan in exactly the term, and the balance only
   * falls after that.
   */
  lemma PaidOffFromTerm(inputs: Inputs, year: nat)
    requires Computable(inputs)
    requires FundingOf(inputs).loanAmount >= 0.0 && inputs.interestRate >= -1200.0
    requires year >= inputs.loanTerm
    ensures Snapshot(ProjectionOf(inputs), year).loanBalance == 0.0
  {
    var p := ProjectionOf(inputs);
    PaidOffAtTerm(p.loanAmount, inputs.interestRate, inputs.loanTerm);
    BalanceNonIncreasing(p.loanAmount, p.monthlyMortgage, p.monthlyRate, inputs.loanTerm * 12, 12 * year);
  }

  /**
   * The calculation holds one snapshot per year held, numbered from 1, and its
   * totals are the profit and return of the last one; in simple mode that is
   * ten years.
   */
  lemma CalculationShape(inputs: Inputs, result: Calculation)
    requires Computable(inputs) && IsCalculationOf(inputs, result)
    ensures |result.yearlyData| >= 1
    ensures forall i :: 0 <= i < |result.yearlyData| ==> result.yearlyData[i].year == i + 1
    ensures inputs.SimpleInputs? ==> |result.yearlyData| == 10
    ensures result.totalROI * result.funding.initialInvestment == result.finalProfit * 100.0
  {
    ShapeOfYears(ProjectionOf(inputs), HorizonOf(inputs).holdingPeriod, inputs.SimpleInputs?, result);
  }

  /**
   * The shape of a calculation stated over the few facts it rests on: one
   * snapshot per whole year of a holding period of at least a year, ten for
   * the simple form, and a return that is the last year's profit over the
   * investment.
   */
  lemma ShapeOfYears(p: Projection, holdingPeriod: real, simple: bool, result: Calculation)
    requires p.initialInvestment != 0.0 && holdingPeriod >= 1.0
    requires simple ==> holdingPeriod == 10.0
    requires |result.yearlyData| == holdingPeriod.Floor
    requires forall i :: 0 <= i < |result.yearlyData| ==> result.yearlyData[i] == Snapshot(p, i + 1)
    requires result.funding.initialInvestment == p.initialInvestment
    requires |result.yearlyData| > 0 ==> result.totalROI == result.yearlyData[|result.yearlyData| - 1].roiIfSold
    requires |result.yearlyData| > 0 ==> result.finalProfit == result.yearlyData[|result.yearlyData| - 1].profitIfSold
    ensures |result.yearlyData| >= 1
    ensures forall i :: 0 <= i < |result.yearlyData| ==> result.yearlyData[i].year == i + 1
    ensures simple ==> |result.yearlyData| == 10
    ensures result.totalROI * result.funding.initialInvestment == result.finalProfit * 100.0
  {
    SnapshotAccounting(p, |result.yearlyData|);
  }

  /**
   * calculateSimple: reject the form with its message when the price or the
   * rent is missing, and otherwise run performCalculations on the defaulted
   * inputs.
   */
  method CalculateSimple(form: SimpleForm) returns (r: Result<Calculation, string>)
    requires SimpleInputsOf(form).Ok? ==> Computable(SimpleInputsOf(form).value)
    ensures r.Err? <==> Blank(form.purchasePrice, 0.0) || Blank(form.monthlyRent, 0.0)
    ensures r.Err? ==> r.error == SimpleMissingMessage
    ensures r.Ok? ==> IsCalculationOf(SimpleInputsOf(form).value, r.value)
  {
    var inputs := SimpleInputsOf(form);
    if inputs.Err? {
      return Err(inputs.error);
    }
    var result := PerformCalculations(inputs.value);
    return Ok(result);
  }

  /**
   * calculateAdvanced: reject the form with its message when the price, the
   * rent or the down payment is missing, and otherwise run
   * performCalculations on the defaulted inputs.
   */
  method CalculateAdvanced(form: AdvancedForm) returns (r: Result<Calculation, string>)
    requires AdvancedInputsOf(form).Ok? ==> Computable(AdvancedInputsOf(form).value)
    ensures r.Err? <==> Blank(form.purchasePrice, 0.0) || Blank(form.monthlyRent, 0.0)
                        || Blank(form.downPaymentAmount, 0.0)
    ensures r.Err? ==> r.error == AdvancedMissingMessage
    ensures r.Ok? ==> IsCalculationOf(AdvancedInputsOf(form).value, r.value)
  {
    var inputs := AdvancedInputsOf(form);
    if inputs.Err? {
      return Err(inputs.error);
    }
    var result := PerformCalculations(inputs.value);
    return Ok(result);
  }
}
