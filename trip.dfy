/** The trip-plan builder, generateTripPlan in src/utils/tripGenerator.ts. */
module TripPlanner {
  import opened Basics
  import opened Destinations
  import opened Transport
  import opened Hotels
  import opened Itinerary
  import opened Weather
  import opened Budget

  /**
   * The trip form. The start and end dates are represented by what the builder derives from
   * them: the number of nights and the 0-based month of the start date.
   */
  datatype TripBasicInfo = TripBasicInfo(
    destination: string, startLocation: string, nights: int, startMonth: int, transportMode: string)

  datatype TripPreferences = TripPreferences(budget: real, ticketBooking: string, hotelPreference: string)

  datatype TripPlan = TripPlan(
    userId: string,
    basicInfo: TripBasicInfo,
    preferences: TripPreferences,
    itinerary: seq<DayItinerary>,
    hotels: seq<Hotel>,
    transportInfo: TransportInfo,
    weather: WeatherInfo,
    budgetBreakdown: BudgetBreakdown)

  /** The sum of the nightly prices, added up from the front as `reduce` does. */
  function SumPrices(hs: seq<Hotel>): int
  {
    if |hs| == 0 then 0 else SumPrices(hs[..|hs| - 1]) + hs[|hs| - 1].pricePerNight
  }

  lemma {:induction false} SumPricesAppend(a: seq<Hotel>, b: seq<Hotel>)
    ensures SumPrices(a + b) == SumPrices(a) + SumPrices(b)
    decreases |b|
  {
    if |b| > 0 {
      assert (a + b)[..|a + b| - 1] == a + b[..|b| - 1];
      SumPricesAppend(a, b[..|b| - 1]);
    } else {
      assert a + b == a;
    }
  }

  /** Reordering the hotels does not change the sum of their prices. */
  lemma {:induction false} SumPricesPermutation(s: seq<Hotel>, t: seq<Hotel>)
    requires multiset(s) == multiset(t)
    ensures SumPrices(s) == SumPrices(t)
    decreases |s|
  {
    if |s| == 0 {
      assert |t| == |multiset(t)| == 0;
    } else {
      var x := s[|s| - 1];
      assert x in multiset(t);
      var k :| 0 <= k < |t| && t[k] == x;
      var rest := t[..k] + t[k + 1..];
      assert t == t[..k] + [x] + t[k + 1..];
      assert s == s[..|s| - 1] + [x];
      assert multiset(rest) == multiset(t) - multiset{x} by {
        assert multiset(t) == multiset(t[..k]) + multiset{x} + multiset(t[k + 1..]);
      }
      assert multiset(s[..|s| - 1]) == multiset(s) - multiset{x};
      SumPricesPermutation(s[..|s| - 1], rest);
      SumPricesRemove(t, k);
    }
  }

  /** Taking one hotel out of a list takes its price out of the sum. */
  lemma {:induction false} SumPricesRemove(t: seq<Hotel>, k: int)
    requires 0 <= k < |t|
    ensures SumPrices(t) == SumPrices(t[..k] + t[k + 1..]) + t[k].pricePerNight
  {
    assert t == (t[..k] + [t[k]]) + t[k + 1..];
    SumPricesAppend(t[..k] + [t[k]], t[k + 1..]);
    SumPricesAppend(t[..k], [t[k]]);
    SumPricesAppend(t[..k], t[k + 1..]);
    assert SumPrices([t[k]]) == t[k].pricePerNight by {
      assert [t[k]][..0] == [];
    }
  }

  /** The average nightly price the budget step receives: the mean over the six hotels. */
  function MeanPrice(hs: seq<Hotel>): real
    requires |hs| > 0
  {
    SumPrices(hs) as real / |hs| as real
  }

  /** The parameters handed to the budget step. */
  function PlanBudgetParams(basicInfo: TripBasicInfo, preferences: TripPreferences): BudgetParams
    requires basicInfo.nights >= 1
  {
    BudgetParams(
      preferences.budget,
      basicInfo.nights,
      CheckTransportFeasibility(basicInfo.startLocation, basicInfo.destination, basicInfo.transportMode).estimatedCost as real,
      MeanPrice(BuildHotels(preferences.budget, basicInfo.nights)),
      basicInfo.destination)
  }

  /**
   * generateTripPlan: one itinerary entry for each of the nights + 1 days, day i + 1 on entry i;
   * the ranked hotel slate; the transport verdict; the weather of the start month; and the
   * budget computed from the transport cost and the mean hotel price.
   */
  method GenerateTripPlan(basicInfo: TripBasicInfo, preferences: TripPreferences, userId: string)
    returns (plan: TripPlan)
    requires basicInfo.nights >= 1
    ensures plan.userId == userId && plan.basicInfo == basicInfo && plan.preferences == preferences
    ensures |plan.itinerary| == basicInfo.nights + 1
    ensures forall i :: 0 <= i < |plan.itinerary| ==>
      plan.itinerary[i] == GenerateDayItinerary(i + 1, i, GetDestinationInfo(basicInfo.destination))
    ensures |plan.hotels| == 6
    ensures multiset(plan.hotels) == multiset(BuildHotels(preferences.budget, basicInfo.nights))
    ensures SortedByRank(plan.hotels)
    ensures plan.transportInfo
      == CheckTransportFeasibility(basicInfo.startLocation, basicInfo.destination, basicInfo.transportMode)
    ensures plan.weather == GetWeatherInfo(basicInfo.destination, basicInfo.startMonth)
    ensures plan.budgetBreakdown == CalculateBudgetBreakdown(PlanBudgetParams(basicInfo, preferences))
  {
    var nights := basicInfo.nights;
    var days := nights + 1;
    var destinationInfo := GetDestinationInfo(basicInfo.destination);
    var transportInfo := CheckTransportFeasibility(basicInfo.startLocation, basicInfo.destination, basicInfo.transportMode);
    var hotels := GenerateHotels(preferences.hotelPreference, preferences.budget, nights, basicInfo.destination);

    var itinerary := BuildItinerary(days, destinationInfo);
    var weather := GetWeatherInfo(basicInfo.destination, basicInfo.startMonth);
    var sum := TotalPrice(hotels);
    SumPricesPermutation(hotels, BuildHotels(preferences.budget, nights));
    var avgHotelPrice := sum as real / |hotels| as real;

    var budgetBreakdown := CalculateBudgetBreakdown(BudgetParams(
      preferences.budget, nights, transportInfo.estimatedCost as real, avgHotelPrice, basicInfo.destination));

    plan := TripPlan(userId, basicInfo, preferences, itinerary, hotels, transportInfo, weather, budgetBreakdown);
  }

  /** The itinerary loop: one entry per day, day i + 1 dated i days after the start. */
  method BuildItinerary(days: int, destinationInfo: DestinationProfile) returns (itinerary: seq<DayItinerary>)
    requires days >= 0
    ensures |itinerary| == days
    ensures forall i :: 0 <= i < days ==> itinerary[i] == GenerateDayItinerary(i + 1, i, destinationInfo)
  {
    itinerary := [];
    for i := 0 to days
      invariant |itinerary| == i
      invariant forall j :: 0 <= j < i ==> itinerary[j] == GenerateDayItinerary(j + 1, j, destinationInfo)
    {
      var day := GenerateDayItinerary(i + 1, i, destinationInfo);
      itinerary := itinerary + [day];
    }
  }

  /** The `reduce` over the slate: the sum of the nightly prices. */
  method TotalPrice(hotels: seq<Hotel>) returns (sum: int)
    ensures sum == SumPrices(hotels)
  {
    sum := 0;
    for i := 0 to |hotels|
      invariant sum == SumPrices(hotels[..i])
    {
      assert hotels[..i + 1][..i] == hotels[..i];
      sum := sum + hotels[i].pricePerNight;
    }
    assert hotels[..|hotels|] == hotels;
  }

  /**
   * Whatever the order the slate is ranked in, the mean handed to the budget step is the mean of
   * the six built prices, and with a budget that is not negative it lies within the luxury cap.
   */
  lemma MeanPriceBounds(budget: real, nights: int)
    requires nights >= 1
    ensures budget >= 0.0 ==> 0.0 <= MeanPrice(BuildHotels(budget, nights)) <= 400.0
  {
    var hs := BuildHotels(budget, nights);
    HotelPriceBounds(budget, nights);
    SlateTiers();
    assert forall i :: 0 <= i < 6 ==> hs[i].pricePerNight <= 400;
    SumPricesBounds(hs, 400);
  }

  lemma {:induction false} SumPricesBounds(hs: seq<Hotel>, cap: int)
    requires forall i :: 0 <= i < |hs| ==> hs[i].pricePerNight <= cap
    ensures SumPrices(hs) <= cap * |hs|
    ensures (forall i :: 0 <= i < |hs| ==> hs[i].pricePerNight >= 0) ==> SumPrices(hs) >= 0
    decreases |hs|
  {
    if |hs| > 0 {
      SumPricesBounds(hs[..|hs| - 1], cap);
    }
  }
}
