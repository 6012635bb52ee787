/** Budget allocation, under-budget warning and local-currency total (src/utils/budgetService.ts). */
module Budget {
  import opened Basics
  import opened Text
  import opened Currency

  /** The BudgetParams record. */
  datatype BudgetParams = BudgetParams(
    budget: real, nights: int, transportCost: real, hotelPricePerNight: real, destination: string)

  /** The four categories and their total, before any rounding. */
  datatype Allocation = Allocation(transport: real, accommodation: real, food: real, activities: real, total: real)

  datatype BudgetBreakdown = BudgetBreakdown(
    transport: int, accommodation: int, food: int, activities: int, total: int,
    currency: string, localCurrencyTotal: int, localCurrency: string, budgetWarning: Option<string>)

  /** Food and activities daily floors (USD per night). */
  const FoodPerNight: real := 50.0
  const ActivitiesPerNight: real := 40.0

  /**
   * Accommodation is the nightly rate times the nights; what the budget leaves after transport
   * and accommodation (possibly negative) is split evenly between food and activities, each
   * raised to its per-night floor. So the total never falls below the budget.
   */
  function Allocate(p: BudgetParams): (a: Allocation)
    ensures a.transport == p.transportCost
    ensures a.accommodation == p.hotelPricePerNight * p.nights as real
    ensures var remaining := p.budget - a.accommodation - a.transport;
      && a.food >= remaining * 0.5 && a.food >= FoodPerNight * p.nights as real
      && (a.food == remaining * 0.5 || a.food == FoodPerNight * p.nights as real)
      && a.activities >= remaining * 0.5 && a.activities >= ActivitiesPerNight * p.nights as real
      && (a.activities == remaining * 0.5 || a.activities == ActivitiesPerNight * p.nights as real)
    ensures a.total == a.transport + a.accommodation + a.food + a.activities
    ensures a.total >= p.budget
  {
    var accommodation := p.hotelPricePerNight * p.nights as real;
    var transport := p.transportCost;
    var remaining := p.budget - accommodation - transport;
    var food := MaxReal(remaining * 0.5, p.nights as real * FoodPerNight);
    var activities := MaxReal(remaining * 0.5, p.nights as real * ActivitiesPerNight);
    Allocation(transport, accommodation, food, activities, transport + accommodation + food + activities)
  }

  /** minRecommendedBudget: transport, accommodation and 100 per night. */
  function MinRecommendedBudget(p: BudgetParams): real
  {
    p.transportCost + p.hotelPricePerNight * p.nights as real + p.nights as real * 100.0
  }

  function WarningText(recommended: int): string
  {
    "Your budget seems too low for this location. We recommend at least $" + IntToString(recommended)
      + " for a comfortable trip."
  }

  /**
   * calculateBudgetBreakdown: every category and the total rounded on its own, the code "USD",
   * the local currency always filled in from the unrounded total, and a warning exactly when the
   * budget is under 70% of the recommended minimum.
   */
  function CalculateBudgetBreakdown(p: BudgetParams): (r: BudgetBreakdown)
    ensures var a := Allocate(p);
      && r.transport == Round(a.transport) && r.accommodation == Round(a.accommodation)
      && r.food == Round(a.food) && r.activities == Round(a.activities) && r.total == Round(a.total)
    ensures r.currency == "USD"
    ensures r.localCurrency == GetCurrencyForDestination(p.destination).code
    ensures r.localCurrencyTotal == ConvertCurrency(Allocate(p).total, p.destination).amount
    ensures r.budgetWarning.Some? <==> p.budget < MinRecommendedBudget(p) * 0.7
    ensures r.budgetWarning.Some? ==> r.budgetWarning.value == WarningText(Round(MinRecommendedBudget(p)))
  {
    var a := Allocate(p);
    var localConversion := ConvertCurrency(a.total, p.destination);
    var minRecommended := MinRecommendedBudget(p);
    var budgetWarning := if p.budget < minRecommended * 0.7 then Some(WarningText(Round(minRecommended))) else None;
    BudgetBreakdown(
      Round(a.transport), Round(a.accommodation), Round(a.food), Round(a.activities), Round(a.total),
      "USD", localConversion.amount, localConversion.currency, budgetWarning)
  }

  /** After rounding, the floors still hold and the total is not below the rounded budget. */
  lemma RoundedFloors(p: BudgetParams)
    requires p.nights >= 0
    ensures var r := CalculateBudgetBreakdown(p);
      && r.food >= 50 * p.nights && r.activities >= 40 * p.nights && r.total >= Round(p.budget)
  {
    var a := Allocate(p);
    RoundMonotone(FoodPerNight * p.nights as real, a.food);
    RoundOfInteger(50 * p.nights);
    RoundMonotone(ActivitiesPerNight * p.nights as real, a.activities);
    RoundOfInteger(40 * p.nights);
    RoundMonotone(p.budget, a.total);
  }

  /** Rounding each category separately drifts from the rounded total by at most 2. */
  lemma RoundingDriftBound(p: BudgetParams)
    ensures var r := CalculateBudgetBreakdown(p);
      -2 <= r.transport + r.accommodation + r.food + r.activities - r.total <= 2
  {
  }

  /** The drift is real: categories 0, 1, 500, 500 against a rounded total of 1000. */
  lemma RoundingDriftExample(destination: string)
    ensures var r := CalculateBudgetBreakdown(BudgetParams(1000.0, 1, 0.0, 0.5, destination));
      r.transport + r.accommodation + r.food + r.activities == r.total + 1
  {
    var a := Allocate(BudgetParams(1000.0, 1, 0.0, 0.5, destination));
    assert a.food == 499.75 && a.activities == 499.75 && a.total == 1000.0;
  }

  /** Budget 100 against transport 600, 5 nights at 100: the recommended minimum is 1600. */
  lemma WarningExample(destination: string)
    ensures CalculateBudgetBreakdown(BudgetParams(100.0, 5, 600.0, 100.0, destination)).budgetWarning
      == Some(WarningText(1600))
    ensures IntToString(1600) == "1600"
  {
    var p := BudgetParams(100.0, 5, 600.0, 100.0, destination);
    assert MinRecommendedBudget(p) == 1600.0;
    RoundOfInteger(1600);
    assert NatToString(16) == "16";
    assert NatToString(160) == "160";
  }
}
