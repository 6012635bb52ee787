# Trip-plan engine, modelled in Dafny

This project models the trip-plan engine of a travel-planning web application (the code under
`src/utils`). Given a trip form (origin, destination, dates, transport mode) and preferences
(budget, hotel and ticket choices), the engine builds a plan. The plan holds:

- one itinerary entry per day, rotating through the destination's attractions and restaurants;
- a slate of six hotels priced from the budget and ranked by rating and price;
- a transport verdict: whether the mode is possible on the route, and what it costs;
- a weather estimate for the travel month;
- a budget breakdown with a local-currency total and an under-budget warning.

A separate rule-based chat assistant answers travel questions from keyword rules and a small
city knowledge table.

The destination lookups (currency, destination profile, country, chat city) are case-insensitive
substring searches over ordered tables. The packing tips and the chat knowledge are read by exact
key, and the season's weather by index into the table of buckets. The model keeps each keyed
table as a sequence of (key, value) pairs in declaration order, so the order in which
overlapping keys are tried is explicit.

Modules, one per part of the engine:

- `Basics`: `Option`; JavaScript's `Math.round` on reals (`Round`) and `%` on integers (`JsRem`).
- `Text`: ASCII lower-casing, `includes`, and first-match search over an ordered table
  (`FirstMatch`, `LookupFirst`, `LookupExact`). Also number printing and `join`.
- `Currency`: currencyService.ts.
- `Budget`: budgetService.ts.
- `Weather`: weatherService.ts.
- `Destinations`: the destination profiles and the country table of tripGenerator.ts, with the
  imperative country loop as a method.
- `Transport`: the transport verdict.
- `Hotels`: the hotel slate, built into an array and sorted in place by insertion sort.
- `Itinerary`: one day of the plan.
- `TripPlanner`: the plan builder. It loops over the days and sums the hotel prices.
- `Chat`: chatService.ts.

Money is `real`; the engine's floating-point arithmetic is taken as exact. Dates come in as what
the engine derives from them: the number of nights (at least 1), the 0-based month of the start
date, and each day's offset from the start.

Behaviour of the code worth knowing:

- The weather override for Delhi/India has a second branch, `month >= 10 && month <= 2`, that no
  month satisfies, so months 10 to 2 keep their generic bucket (`Weather.SeasonOverride`).
- The budget breakdown sets the local-currency fields even when the currency code is USD.
- For a budget that is not negative, each tier's "discounted" second hotel never costs more than
  the first one. For a negative budget it costs no less, and more once the budget is negative
  enough (`Hotels.NegativeBudgetInvertsDiscount`).
- A message that contains "weather" always gets the food reply, because "weather" contains
  "eat" and the food rule is tried first. The weather reply is reachable only through "climate"
  (`Chat.WeatherWordMeansFood`).

## Model

| member | source | states |
|---|---|---|
| Basics.Round | src/utils/currencyService.ts:43 | `Math.round` of an exact real: the integer within half of it, a half rounding up |
| Basics.JsRem | src/utils/tripGenerator.ts:324 | JavaScript `%`: the Euclidean remainder for a non-negative dividend; otherwise a result in (-n, 0] |
| Basics.JsRemCongruent | src/utils/tripGenerator.ts:324 | for every dividend, the dividend minus its JavaScript remainder is a multiple of n |
| Basics.RoundMonotone | src/utils/budgetService.ts:35-39 | rounding preserves order, so the rounded floors and totals keep their inequalities |
| Text.Lower | src/utils/currencyService.ts:29 | `toLowerCase` maps each character to its ASCII lower case and keeps the length |
| Text.FirstMatch | src/utils/currencyService.ts:31-35 | the early-return loop over an ordered table: returns the first entry whose key occurs in the text, and None exactly when no key occurs |
| Text.LookupFirst | src/utils/tripGenerator.ts:114-120 | the value of the first matching entry, or the default when no key occurs |
| Text.LookupExact | src/utils/weatherService.ts:67 | a record read by exact key: None exactly when no entry carries the key, else a value stored under the key |
| Text.LookupExactFirst | src/utils/weatherService.ts:67 | the read returns the value of the first entry stored under the key |
| Text.NatToString | src/utils/chatService.ts:56 | a number printed in a template literal: decimal digits that spell exactly that number, with no leading zero (so 0 prints as "0") |
| Text.JoinContainsPart | src/utils/chatService.ts:56 | every part of a `join` occurs in the joined string |
| Currency.GetCurrencyForDestination | src/utils/currencyService.ts:28-38 | the first key in declaration order occurring in the lower-cased destination decides; with no match, USD at rate 1; the rate is always positive |
| Currency.ConvertMonotone | src/utils/currencyService.ts:40-45 | every rate in the table is positive, so conversion preserves the order of amounts and keeps the currency code |
| Currency.ConvertNonNegative | src/utils/currencyService.ts:43 | a non-negative amount converts to a non-negative amount |
| Currency.ConvertAtMonotone | src/utils/currencyService.ts:43 | rounding the amount times a positive rate is monotone in the amount |
| Currency.ConvertTokyoExample | src/utils/currencyService.ts:9 | 1000 USD for Tokyo converts to 149500 JPY |
| Currency.ConvertUnknownExample | src/utils/currencyService.ts:37 | a destination that matches no key, such as Reykjavik, converts 1000 USD to 1000 USD |
| Currency.ReykjavikMatchesNoKey | src/utils/currencyService.ts:6-26 | no key of the table occurs in "reykjavik" |
| Currency.ParisBeforeFrance | src/utils/currencyService.ts:7-8 | "Paris, France" resolves through the 'paris' entry, which is tried first, to EUR at 0.92 |
| Currency.PhuketLacksEarlierKeys | src/utils/currencyService.ts:7-12 | none of the six keys before 'uk' occurs in "phuket" |
| Currency.PhuketContainsUk | src/utils/currencyService.ts:13 | "phuket" contains "uk" |
| Currency.PhuketFirstMatchIsUk | src/utils/currencyService.ts:7-13 | 'uk' is the first key occurring in "phuket" |
| Currency.PhuketMatchesUk | src/utils/currencyService.ts:13 | the search for "Phuket" returns the 'uk' entry, not 'bangkok' or 'thailand' |
| Currency.PhuketCurrency | src/utils/currencyService.ts:13 | so Phuket is priced in GBP at 0.79 |
| Currency.PhuketResolvesToPound | src/utils/currencyService.ts:40-45 | 100 USD for Phuket converts to 79 GBP |
| Budget.Allocate | src/utils/budgetService.ts:15-22 | accommodation is price times nights; food and activities are each half the remainder, raised to 50 and 40 per night; the total is the sum of the four and never below the budget |
| Budget.CalculateBudgetBreakdown | src/utils/budgetService.ts:12-45 | a warning exactly when the budget is under 70% of the recommended minimum; the rounded categories keep their floors and add up to within 2 of the rounded total (`Budget.RoundedFloors`, `Budget.RoundingDriftBound`) |
| Budget.RoundedFloors | src/utils/budgetService.ts:19-22 | after rounding, food is still at least 50 per night, activities at least 40, and the total not below the rounded budget |
| Budget.RoundingDriftBound | src/utils/budgetService.ts:35-39 | the rounded categories add up to within 2 of the rounded total |
| Budget.RoundingDriftExample | src/utils/budgetService.ts:35-39 | the drift happens: for budget 1000, one night at 0.5 and no transport, the categories add up to one more than the total |
| Budget.WarningExample | src/utils/budgetService.ts:28-32 | budget 100 with transport 600 and 5 nights at 100 is warned, with a recommended minimum of 1600 |
| Weather.GenericSeasonIndex | src/utils/weatherService.ts:47-51 | months 2-4 map to spring, 5-8 to summer, 9-10 to fall, and every other value to winter, each as an if-and-only-if |
| Weather.SeasonIndex | src/utils/weatherService.ts:53-57 | the bucket after the destination override is a valid table index |
| Weather.SeasonOverride | src/utils/weatherService.ts:53-57 | for Delhi/India, months 3-6 become summer; no other month changes, because the second branch can never fire |
| Weather.PackingTips | src/utils/weatherService.ts:67 | the four tips of the condition's entry, or the Mild list for an unknown condition |
| Weather.GetWeatherInfo | src/utils/weatherService.ts:59-68 | the estimate is fixed by the season bucket alone; no bucket is hot, so the condition is the bucket's label and the tips are that label's four (`Weather.WeatherFollowsBucket`) |
| Weather.WeatherFollowsBucket | src/utils/weatherService.ts:3-8 | no midpoint exceeds 30, so the condition is the bucket's label; temperature and humidity are 20/60, 30/50, 10/70 or 3/65 |
| Weather.ParisExamples | src/utils/weatherService.ts:47-51 | Paris in July is Warm at 30; Paris in January is Cold at 3 |
| Destinations.GetDestinationInfo | src/utils/tripGenerator.ts:112-146 | the profile of the first key, in declaration order, occurring in the lower-cased destination; else the generic profile |
| Destinations.ProfileShape | src/utils/tripGenerator.ts:5-145 | every profile handed out has 8 attractions, 5 restaurants, 4 tips, and 4 or 5 foods |
| Destinations.CountryOfIsLastMatch | src/utils/tripGenerator.ts:166-169 | since the loop overwrites, a side's country is the key of the last matching entry, and "" exactly when no entry matches |
| Destinations.UnresolvedIsDomestic | src/utils/tripGenerator.ts:171 | a side that names no known city makes the route not international |
| Destinations.InternationalSymmetric | src/utils/tripGenerator.ts:171 | swapping origin and destination does not change the verdict |
| Destinations.IsInternationalRoute | src/utils/tripGenerator.ts:148-172 | the loop over the countries table returns true exactly when both sides resolve to countries and they differ |
| Transport.CheckTransportFeasibility | src/utils/tripGenerator.ts:174-236 | infeasible exactly for train or bus on an international route; an infeasible result has alternatives ['Flight'], cost 0, empty duration and the fixed message; a feasible one has neither |
| Transport.FeasibleCosts | src/utils/tripGenerator.ts:181-235 | flight 600 / 8-12 hours abroad and 250 / 2-4 hours at home; domestic train 150, bus 80; any other mode a feasible 500, 8-hour flight |
| Transport.NewYorkIsUsa | src/utils/tripGenerator.ts:153 | "new york" resolves to usa |
| Transport.TokyoIsJapan | src/utils/tripGenerator.ts:154 | "tokyo" resolves to japan |
| Transport.NewYorkTokyoTrainExample | src/utils/tripGenerator.ts:190-199 | New York to Tokyo is international, so a train there is refused |
| Hotels.BudgetPerNight | src/utils/tripGenerator.ts:239 | forty percent of a non-negative budget per night lies between 0 and 40% of the budget |
| Hotels.TierBase | src/utils/tripGenerator.ts:243 | `Math.min`: a tier's base price is the budget share or the cap, whichever is smaller |
| Hotels.SlateTiers | src/utils/tripGenerator.ts:244-310 | six hotels: luxury rated 5 in slots 0-1, comfort rated 4 in 2-3, budget rated 3 in 4-5 |
| Hotels.SlateDistinct | src/utils/tripGenerator.ts:244-310 | no two hotels of the slate coincide |
| Hotels.SlatePrices | src/utils/tripGenerator.ts:243-304 | the six prices, one per pushed hotel |
| Hotels.BuildHotels | src/utils/tripGenerator.ts:241-310 | six distinct hotels in tier order, each with its tier's rating and a price within the cap (`Hotels.BuiltSlateShape`, `Hotels.HotelPriceBounds`) |
| Hotels.PrecedesTotalPreorder | src/utils/tripGenerator.ts:312-315 | the comparator's order is total and transitive, so sorting by it is well defined |
| Hotels.SlatePriceBounds | src/utils/tripGenerator.ts:239-304 | every price is at most its tier's cap; with a non-negative budget every price is non-negative and each second hotel costs no more than the first |
| Hotels.HotelPriceBounds | src/utils/tripGenerator.ts:244-310 | every built hotel has its tier's rating and a price within the cap (non-negative for a non-negative budget) |
| Hotels.TierPriceBounds | src/utils/tripGenerator.ts:243-304 | a tier's base and discounted prices are at most the cap; for a non-negative budget they are non-negative and the discount does not raise the price |
| Hotels.NegativeBudgetInvertsDiscount | src/utils/tripGenerator.ts:247-258 | with budget -1000 for one night, Grand Luxury costs -320 and Royal Palace -304 |
| Hotels.SortByRank | src/utils/tripGenerator.ts:312-315 | the in-place sort leaves the array ordered by rating descending then price ascending, and a permutation of what it held |
| Hotels.InsertIntoSorted | src/utils/tripGenerator.ts:312-315 | one insertion step extends the sorted prefix by one element and permutes the array |
| Hotels.Swap | src/utils/tripGenerator.ts:312-315 | exchanges two cells and leaves every other cell unchanged |
| Hotels.NonIncreasingRatingsAreSlotRatings | src/utils/tripGenerator.ts:312-313 | non-increasing ratings that are a rearrangement of 5,5,4,4,3,3 are exactly 5,5,4,4,3,3 |
| Hotels.BuiltSlateShape | src/utils/tripGenerator.ts:244-310 | the built list has the slot tiers and ratings, and its six hotels are distinct |
| Hotels.RankedSlateTiers | src/utils/tripGenerator.ts:312-315 | any ranked permutation of the slate lists the two luxury hotels, then the two comfort hotels, then the two budget hotels |
| Hotels.GenerateHotels | src/utils/tripGenerator.ts:238-316 | six hotels, a permutation of the built ones, ranked; each has its tier's rating and a price within the cap; prices are non-negative for a non-negative budget; tiers in slot order; preference and destination play no part |
| Itinerary.At | src/utils/tripGenerator.ts:331 | an array read: the element when the index is in range, else undefined (empty) |
| Itinerary.AtRem | src/utils/tripGenerator.ts:333 | `xs[k % xs.length]`: the Euclidean-remainder element for k >= 0; undefined for an empty list or a negative k with a non-zero remainder |
| Itinerary.OrElse | src/utils/tripGenerator.ts:331-334 | `text \|\| fallback` on strings |
| Itinerary.Truthy | src/utils/tripGenerator.ts:340 | `.filter(Boolean)` keeps exactly the non-empty entries |
| Itinerary.TruthyAppend | src/utils/tripGenerator.ts:340 | the filter keeps order: filtering a concatenation concatenates the filtered parts |
| Itinerary.TruthyCounts | src/utils/tripGenerator.ts:340 | each non-empty entry is kept as often as it occurs, and no empty one is kept |
| Itinerary.TruthyKeepsNonEmpty | src/utils/tripGenerator.ts:340 | a list without empty entries passes the filter unchanged |
| Itinerary.DayAttractionSlots | src/utils/tripGenerator.ts:337-339 | the three attraction slots of a day |
| Itinerary.GenerateDayItinerary | src/utils/tripGenerator.ts:318-347 | the day and date as given; five activities with breakfast first and lunch third; at most three non-empty attractions; two restaurants; the first two tips |
| Itinerary.StartIndexOnRealDays | src/utils/tripGenerator.ts:323-324 | for day >= 1 the start index is ((day-1)*min(3,n)) % n and lies in range |
| Itinerary.DayAttractions | src/utils/tripGenerator.ts:336-340 | the day's attractions are those at startIdx, startIdx+1 and startIdx+2 modulo the count, falsy ones dropped |
| Itinerary.DayRestaurants | src/utils/tripGenerator.ts:341-344 | the restaurants at day and day+1 modulo their count |
| Itinerary.ActivitiesNameAttractions | src/utils/tripGenerator.ts:329-340 | with three filled slots, the activities visit, explore and spend the evening at exactly the day's attractions |
| Itinerary.NoAttractionsFallback | src/utils/tripGenerator.ts:331-340 | with no attractions, the day lists none and uses the three fallback texts |
| Itinerary.DaysAdvanceByThree | src/utils/tripGenerator.ts:324 | with at least three attractions, each day starts three places after the previous one, modulo the count |
| Itinerary.DaySlotsDistinct | src/utils/tripGenerator.ts:337-339 | with at least three attractions, one day never repeats a slot |
| Itinerary.EightDayRotation | src/utils/tripGenerator.ts:323-324 | with eight attractions, days 1-8 start at 0,3,6,1,4,7,2,5 and day 9 starts where day 1 did |
| TripPlanner.GenerateTripPlan | src/utils/tripGenerator.ts:349-398 | nights+1 entries, entry i for day i+1; the ranked hotel permutation; the transport verdict; the start month's weather; the budget from the transport cost and the mean hotel price; inputs passed through |
| TripPlanner.BuildItinerary | src/utils/tripGenerator.ts:368-373 | the loop pushes the entry for day i+1 at position i, for every day |
| TripPlanner.TotalPrice | src/utils/tripGenerator.ts:377 | the `reduce` computes the sum of the nightly prices |
| TripPlanner.SumPricesPermutation | src/utils/tripGenerator.ts:377 | reordering the hotels does not change the sum, so the sorted slate's mean is the built slate's mean |
| TripPlanner.MeanPriceBounds | src/utils/tripGenerator.ts:377-382 | for a non-negative budget, the mean hotel price handed to the budget step lies between 0 and 400 |
| Chat.FindDestinationMatch | src/utils/chatService.ts:35-43 | the first city key (paris, tokyo, london, delhi) occurring in the lower-cased query; None exactly when none occurs |
| Chat.ResolveKey | src/utils/chatService.ts:49-50 | a city named in the destination wins; only when the destination names none is the message searched |
| Chat.KnowledgeOf | src/utils/chatService.ts:52 | no key gives no knowledge; any knowledge given is a table entry stored under the key |
| Chat.KnowledgeOfTableKey | src/utils/chatService.ts:52 | every key of the table gives the entry stored under it |
| Chat.FirstTopic | src/utils/chatService.ts:54-94 | the topic of the first rule, in order, with a keyword in the message; the menu when none fires |
| Chat.ChatFollowsRules | src/utils/chatService.ts:45-95 | the chain of keyword tests answers exactly as the ordered rule table does |
| Chat.TopicByRule | src/utils/chatService.ts:54-92 | the rule table picks the topic of the first keyword test, in source order, that the message passes |
| Chat.RuleOrder | src/utils/chatService.ts:54-92 | the rule table's topic is food, transport, tips, attractions, weather, budget, hotel or menu, tried in that order |
| Chat.WeatherWordMeansFood | src/utils/chatService.ts:54-84 | a message containing "weather" is a food question; the weather topic needs "climate" without "weather" |
| Chat.FixedRepliesIgnoreDestination | src/utils/chatService.ts:82-92 | the weather, budget and hotel replies are the same for every destination |
| Chat.RepliesIgnoringKnowledge | src/utils/chatService.ts:82-94 | the weather, budget, hotel and menu replies do not depend on the city knowledge found |
| Chat.GenericAnswerExactlyWithoutCity | src/utils/chatService.ts:49-52 | there is no city knowledge exactly when neither the destination nor the message names a known city |
| Chat.NumberedListHasItem | src/utils/chatService.ts:56 | item i appears in the numbered list on a line "i+1. item" |
| Chat.KnowledgeRepliesListEveryItem | src/utils/chatService.ts:55-77 | a reply drawn from a city entry contains every line of the entry's list for the topic, numbered from 1 in order |
| Chat.ParisTripUsesParis | src/utils/chatService.ts:49-50 | a trip to "Paris" answers from the Paris entry whatever city the message names |

## Left out

- The user interface, the session state, sign-in and the chat widget are outside the engine and
  are not part of this model.
- Date handling: parsing the start and end dates, the `Math.ceil` night count, `setDate`, the
  ISO date strings and the time zone behind `getMonth`. The model takes the nights, the 0-based
  start month and each day's offset as integers.
- The plan's `id` and `createdAt`, which read the clock.
- IEEE-754 arithmetic: amounts are exact reals with a half-up `Round`, so binary rounding error
  is not modelled.
- Zero or negative nights: the engine divides by the night count, so the model requires at least
  one night; at zero nights the engine computes with Infinity or NaN. This also leaves out the
  trips whose end date is before the start date, which the engine accepts.
- Full Unicode case folding: `Lower` maps only ASCII letters.
- `ticketBooking` and `hotelPreference` are carried in the preferences but do not influence the
  plan. `GenerateHotels` takes the preference and ignores it, as the engine does.
- Currency.ConvertCurrency: stated without its own ensures. Its meaning is carried by
  `Currency.ConvertAt` and the conversion lemmas listed above.
- Hotels.SortByRank: the sort is stable, as the engine's is, but stability is not proved. It
  matters only for hotels equal in rating and price.
- Chat.GenerateChatResponse: the reply text is modelled in full, but the proofs speak about it
  through the rule table and containment of the numbered lines. The exact layout of the newlines
  around a list is not stated as a lemma.
- The chat knowledge table's list lengths (four per subject) are not proved; the lemmas about
  replies hold for lists of any length.
