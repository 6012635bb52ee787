/**
 * The travel-assistant chat (generateChatResponse in src/utils/chatService.ts): a reply chosen
 * by keyword rules tried in a fixed order, filled in from a small knowledge table for four cities.
 */
module Chat {
  import opened Basics
  import opened Text

  /** What the assistant knows about one city: four lines on each of four subjects. */
  datatype Knowledge = Knowledge(
    foods: seq<string>, transportation: seq<string>, tips: seq<string>, attractions: seq<string>)

  /** The four cities the assistant knows. */
  datatype City = Paris | Tokyo | London | Delhi

  /** The keys of the knowledge table: lower-case city names, in the order they are enumerated. */
  const DestinationKnowledge: seq<(string, City)> :=
    [("paris", Paris), ("tokyo", Tokyo), ("london", London), ("delhi", Delhi)]

  /** The knowledge table's entry for each city. */
  function CityKnowledge(c: City): Knowledge
  {
    match c
    case Paris =>
      Knowledge(
      ["Try authentic croissants at local boulangeries", "Must-try: Escargot, Coq au Vin, and Cr\U{e8}me Br\U{fb}l\U{e9}e",
       "Visit Le Marais for the best falafel", "Don't miss the macarons at Ladur\U{e9}e"],
      ["Metro is the fastest way around", "Buy a Paris Visite pass for unlimited travel",
       "Velib bike-sharing is great for short distances", "Uber and taxis are readily available"],
      ["Learn basic French phrases - locals appreciate it", "Visit museums on first Sunday of the month (free!)",
       "Avoid restaurants directly around Eiffel Tower - overpriced", "Book Eiffel Tower tickets online in advance"],
      ["Eiffel Tower opens at 9 AM", "Louvre is closed on Tuesdays",
       "Walk along Seine River at sunset", "Visit Montmartre for stunning city views"])
    case Tokyo =>
      Knowledge(
      ["Best sushi at Tsukiji Outer Market", "Try authentic ramen at Ichiran",
       "Must-try: Wagyu beef and tempura", "Visit depachika (department store basements) for food"],
      ["Get a Suica or Pasmo card immediately", "JR Pass is great for long-distance travel",
       "Trains stop running around midnight", "Tokyo Metro is incredibly efficient"],
      ["Cash is still king in many places", "Remove shoes when entering homes and some restaurants",
       "Tipping is not customary", "Download Google Translate with offline Japanese"],
      ["Visit Senso-ji Temple early morning (6 AM)", "Shibuya Crossing is busiest around 6-8 PM",
       "Tokyo Skytree offers best views on clear days", "Harajuku is best visited on weekends"])
    case London =>
      Knowledge(
      ["Try authentic fish and chips at a local pub", "Borough Market for amazing street food",
       "Must-try: Sunday roast and afternoon tea", "Indian food in Brick Lane is excellent"],
      ["Get an Oyster card for cheaper fares", "Tube runs until midnight on weekdays",
       "Night buses run 24/7", "Walk between attractions - London is beautiful on foot"],
      ["Stand on right side of escalators", "Book West End show tickets at TKTS for discounts",
       "Many museums are free", "Tipping 10-15% at restaurants"],
      ["Tower of London opens at 9 AM", "British Museum is free entry",
       "Book London Eye tickets online", "Visit Sky Garden for free panoramic views"])
    case Delhi =>
      Knowledge(
      ["Try street food at Chandni Chowk", "Must-try: Butter chicken, biryani, and chaat",
       "Visit Paranthe Wali Gali for parathas", "Karim's for authentic Mughlai cuisine"],
      ["Delhi Metro is clean and efficient", "Use Uber or Ola for taxis",
       "Auto-rickshaws - always negotiate fare", "Avoid peak hours (8-10 AM, 6-8 PM)"],
      ["Dress modestly at religious sites", "Bargain at local markets",
       "Stay hydrated - Delhi can be very hot", "Keep small bills for purchases"],
      ["Red Fort opens at 9:30 AM", "India Gate is beautiful in evening",
       "Visit Qutub Minar early morning", "Lotus Temple is closed on Mondays"])
  }

  /** findDestinationMatch: the first city key, in table order, that occurs in the lower-cased query. */
  function FindDestinationMatch(query: string): (r: Option<string>)
    ensures r.None? <==> NoMatch(DestinationKnowledge, Lower(query))
    ensures forall i :: IsFirstMatch(DestinationKnowledge, Lower(query), i) ==> r == Some(DestinationKnowledge[i].0)
  {
    match FirstMatch(DestinationKnowledge, Lower(query))
    case None => None
    case Some(i) => Some(DestinationKnowledge[i].0)
  }

  /**
   * The city the reply draws on: one named in the trip's destination wins; only when the
   * destination names none is the message itself searched.
   */
  function ResolveKey(userMessage: string, destination: string): (r: Option<string>)
    ensures !NoMatch(DestinationKnowledge, Lower(destination)) ==> r == FindDestinationMatch(destination)
    ensures NoMatch(DestinationKnowledge, Lower(destination)) ==> r == FindDestinationMatch(userMessage)
  {
    LowerIdempotent(destination);
    LowerIdempotent(userMessage);
    match FindDestinationMatch(Lower(destination))
    case Some(k) => Some(k)
    case None => FindDestinationMatch(Lower(userMessage))
  }

  /** `destKey ? destinationKnowledge[destKey] : null`. */
  function KnowledgeOf(key: Option<string>): (k: Option<Knowledge>)
    ensures key.None? ==> k.None?
    ensures k.Some? ==>
      exists i :: 0 <= i < |DestinationKnowledge| && DestinationKnowledge[i].0 == key.value
        && k.value == CityKnowledge(DestinationKnowledge[i].1)
  {
    match key
    case None => None
    case Some(name) =>
      match LookupExact(DestinationKnowledge, name)
      case None => None
      case Some(c) => Some(CityKnowledge(c))
  }

  /** Every key of the knowledge table yields the entry stored under it. */
  lemma KnowledgeOfTableKey(i: int)
    requires 0 <= i < |DestinationKnowledge|
    ensures KnowledgeOf(Some(DestinationKnowledge[i].0)) == Some(CityKnowledge(DestinationKnowledge[i].1))
  {
    var key := DestinationKnowledge[i].0;
    assert IsFirstKey(DestinationKnowledge, key, i);
    LookupExactFirst(DestinationKnowledge, key, i);
  }

  /** The numbered list of a reply: item i on its own line as "i + 1. item". */
  function NumberedList(items: seq<string>): string
  {
    Join("\n", seq(|items|, i requires 0 <= i < |items| => NatToString(i + 1) + ". " + items[i]))
  }

  function FoodReply(destination: string, knowledge: Option<Knowledge>): string
  {
    if knowledge.Some? then
      "Great question about food in " + destination + "! Here are my recommendations:\n\n"
      + NumberedList(knowledge.value.foods) + "\n\nEnjoy your culinary adventure!"
    else
      "For food in " + destination + ", I recommend trying local specialties, visiting popular food markets, "
      + "and asking locals for their favorite spots. Street food is often authentic and delicious!"
  }

  function TransportReply(destination: string, knowledge: Option<Knowledge>): string
  {
    if knowledge.Some? then
      "Here's how to get around " + destination + ":\n\n"
      + NumberedList(knowledge.value.transportation) + "\n\nHappy travels!"
    else
      "For transportation in " + destination + ", I recommend using public transport where available, "
      + "ride-sharing apps like Uber, or local taxis. Always check if there are tourist transport passes available!"
  }

  function TipsReply(destination: string, knowledge: Option<Knowledge>): string
  {
    if knowledge.Some? then
      "Important tips for " + destination + ":\n\n" + NumberedList(knowledge.value.tips) + "\n\nHave a wonderful trip!"
    else
      "Here are some general tips for " + destination + ": Research local customs, learn a few phrases in the "
      + "local language, respect cultural norms, and always keep your belongings secure."
  }

  function AttractionsReply(destination: string, knowledge: Option<Knowledge>): string
  {
    if knowledge.Some? then
      "Must-know about attractions in " + destination + ":\n\n"
      + NumberedList(knowledge.value.attractions) + "\n\nEnjoy exploring!"
    else
      destination + " has many wonderful attractions! I recommend booking popular sites in advance, "
      + "visiting early morning to avoid crowds, and checking opening hours before you go."
  }

  const WeatherReply := "I can see weather information for your trip in the main itinerary. Check the weather "
    + "section for temperature, conditions, and packing tips specific to your travel dates!"

  const BudgetReply := "I've prepared a detailed budget breakdown for your trip. You can find it in the Budget "
    + "Planner section with costs for transport, accommodation, food, and activities. The total is shown in both "
    + "USD and local currency!"

  const HotelReply := "I've recommended several hotels sorted by rating and price. You'll find luxury, mid-range, "
    + "and budget-friendly options with descriptions, amenities, and nearby attractions. Check the Hotels section above!"

  function MenuReply(destination: string): string
  {
    "I'm here to help with your trip to " + destination + "! You can ask me about:\n\n"
    + "\U{2022} Best food and restaurants\n\U{2022} Transportation options\n\U{2022} Travel tips and local customs\n"
    + "\U{2022} Attractions and sightseeing\n\U{2022} Weather and packing\n\U{2022} Budget and costs\n\n"
    + "What would you like to know?"
  }

  /** generateChatResponse: the lower-cased message and the resolved knowledge go to the keyword tests. */
  function GenerateChatResponse(userMessage: string, destination: string): string
  {
    Respond(Lower(userMessage), destination, KnowledgeOf(ResolveKey(userMessage, destination)))
  }

  /**
   * The keyword tests in the order they are written: the first one that fires picks the topic
   * (`ChainTopic`), and the reply is that topic's text (`TopicReply`).
   */
  function Respond(m: string, destination: string, knowledge: Option<Knowledge>): string
  {
    TopicReply(ChainTopic(m), destination, knowledge)
  }

  // A table-driven reading of the same rules, against which the chain above is checked.

  datatype Topic = AskFood | AskTransport | AskTips | AskAttractions | AskWeather | AskBudget | AskHotel | AskOther

  /** The seven keyword rules in the order they are tried. */
  const TopicRules: seq<(Topic, seq<string>)> := [
    (AskFood, FoodWords), (AskTransport, TransportWords), (AskTips, TipsWords), (AskAttractions, SightsWords),
    (AskWeather, WeatherWords), (AskBudget, BudgetWords), (AskHotel, HotelWords)
  ]

  const FoodWords := ["food", "eat", "restaurant"]
  const TransportWords := ["transport", "travel", "get around", "metro", "taxi"]
  const TipsWords := ["tip", "advice", "should i know"]
  const SightsWords := ["attraction", "visit", "see", "place"]
  const WeatherWords := ["weather", "climate"]
  const BudgetWords := ["budget", "cost", "expensive"]
  const HotelWords := ["hotel"]

  /** Rule `i` is the first rule of `rules` with a keyword in `m`. */
  predicate FirstRule(rules: seq<(Topic, seq<string>)>, m: string, i: int)
  {
    && 0 <= i < |rules|
    && ContainsAny(m, rules[i].1)
    && forall j :: 0 <= j < i ==> !ContainsAny(m, rules[j].1)
  }

  /** The topic of the first rule that fires, AskOther when none does. */
  function FirstTopic(rules: seq<(Topic, seq<string>)>, m: string): (t: Topic)
    ensures forall i :: FirstRule(rules, m, i) ==> t == rules[i].0
    ensures (forall i :: 0 <= i < |rules| ==> !ContainsAny(m, rules[i].1)) ==> t == AskOther
    ensures t != AskOther && (forall i :: 0 <= i < |rules| ==> rules[i].0 != AskOther) ==>
      exists i :: FirstRule(rules, m, i)
  {
    if |rules| == 0 then AskOther
    else if ContainsAny(m, rules[0].1) then
      assert FirstRule(rules, m, 0);
      rules[0].0
    else
      var t := FirstTopic(rules[1..], m);
      assert forall i :: FirstRule(rules, m, i) ==> i >= 1 && FirstRule(rules[1..], m, i - 1);
      assert forall i :: FirstRule(rules[1..], m, i) ==> FirstRule(rules, m, i + 1);
      t
  }

  function Classify(userMessage: string): Topic
  {
    FirstTopic(TopicRules, Lower(userMessage))
  }

  /** The reply for a topic. */
  function TopicReply(t: Topic, destination: string, knowledge: Option<Knowledge>): string
  {
    match t
    case AskFood => FoodReply(destination, knowledge)
    case AskTransport => TransportReply(destination, knowledge)
    case AskTips => TipsReply(destination, knowledge)
    case AskAttractions => AttractionsReply(destination, knowledge)
    case AskWeather => WeatherReply
    case AskBudget => BudgetReply
    case AskHotel => HotelReply
    case AskOther => MenuReply(destination)
  }

  lemma AnyOfThree(m: string, a: string, b: string, c: string)
    ensures ContainsAny(m, [a, b, c]) <==> Contains(m, a) || Contains(m, b) || Contains(m, c)
  {
    var ns := [a, b, c];
    if ContainsAny(m, ns) {
      var i :| 0 <= i < 3 && Contains(m, ns[i]);
      assert i == 0 || i == 1 || i == 2;
    }
    if Contains(m, a) {
      assert Contains(m, ns[0]);
    }
    if Contains(m, b) {
      assert Contains(m, ns[1]);
    }
    if Contains(m, c) {
      assert Contains(m, ns[2]);
    }
  }

  lemma AnyOfTwo(m: string, a: string, b: string)
    ensures ContainsAny(m, [a, b]) <==> Contains(m, a) || Contains(m, b)
  {
    var ns := [a, b];
    if ContainsAny(m, ns) {
      var i :| 0 <= i < 2 && Contains(m, ns[i]);
      assert i == 0 || i == 1;
    }
    if Contains(m, a) {
      assert Contains(m, ns[0]);
    }
    if Contains(m, b) {
      assert Contains(m, ns[1]);
    }
  }

  lemma AnyOfFour(m: string, a: string, b: string, c: string, d: string)
    ensures ContainsAny(m, [a, b, c, d]) <==> Contains(m, a) || Contains(m, b) || Contains(m, c) || Contains(m, d)
  {
    var ns := [a, b, c, d];
    if ContainsAny(m, ns) {
      var i :| 0 <= i < 4 && Contains(m, ns[i]);
      assert i == 0 || i == 1 || i == 2 || i == 3;
    }
    if Contains(m, a) {
      assert Contains(m, ns[0]);
    }
    if Contains(m, b) {
      assert Contains(m, ns[1]);
    }
    if Contains(m, c) {
      assert Contains(m, ns[2]);
    }
    if Contains(m, d) {
      assert Contains(m, ns[3]);
    }
  }

  lemma AnyOfFive(m: string, a: string, b: string, c: string, d: string, e: string)
    ensures ContainsAny(m, [a, b, c, d, e])
      <==> Contains(m, a) || Contains(m, b) || Contains(m, c) || Contains(m, d) || Contains(m, e)
  {
    var ns := [a, b, c, d, e];
    if ContainsAny(m, ns) {
      var i :| 0 <= i < 5 && Contains(m, ns[i]);
      assert i == 0 || i == 1 || i == 2 || i == 3 || i == 4;
    }
    if Contains(m, a) {
      assert Contains(m, ns[0]);
    }
    if Contains(m, b) {
      assert Contains(m, ns[1]);
    }
    if Contains(m, c) {
      assert Contains(m, ns[2]);
    }
    if Contains(m, d) {
      assert Contains(m, ns[3]);
    }
    if Contains(m, e) {
      assert Contains(m, ns[4]);
    }
  }

  lemma AnyOfOne(m: string, a: string)
    ensures ContainsAny(m, [a]) <==> Contains(m, a)
  {
    var ns := [a];
    if Contains(m, a) {
      assert Contains(m, ns[0]);
    }
  }

  /** The topic of the first keyword test that the lower-cased message passes. */
  function ChainTopic(m: string): Topic
  {
    if Contains(m, "food") || Contains(m, "eat") || Contains(m, "restaurant") then AskFood
    else if Contains(m, "transport") || Contains(m, "travel") || Contains(m, "get around")
      || Contains(m, "metro") || Contains(m, "taxi") then AskTransport
    else if Contains(m, "tip") || Contains(m, "advice") || Contains(m, "should i know") then AskTips
    else if Contains(m, "attraction") || Contains(m, "visit") || Contains(m, "see") || Contains(m, "place") then AskAttractions
    else if Contains(m, "weather") || Contains(m, "climate") then AskWeather
    else if Contains(m, "budget") || Contains(m, "cost") || Contains(m, "expensive") then AskBudget
    else if Contains(m, "hotel") then AskHotel
    else AskOther
  }

  /** The rule table picks the topic of the first keyword test of the chain that passes. */
  lemma TopicByRule(m: string)
    ensures FirstTopic(TopicRules, m) == ChainTopic(m)
  {
    RuleOrder(m);
    AnyOfThree(m, "food", "eat", "restaurant");
    AnyOfFive(m, "transport", "travel", "get around", "metro", "taxi");
    AnyOfThree(m, "tip", "advice", "should i know");
    AnyOfFour(m, "attraction", "visit", "see", "place");
    AnyOfTwo(m, "weather", "climate");
    AnyOfThree(m, "budget", "cost", "expensive");
    AnyOfOne(m, "hotel");
  }

  /** The rule table's topic in terms of its keyword groups. */
  lemma RuleOrder(m: string)
    ensures FirstTopic(TopicRules, m) ==
      if ContainsAny(m, FoodWords) then AskFood
      else if ContainsAny(m, TransportWords) then AskTransport
      else if ContainsAny(m, TipsWords) then AskTips
      else if ContainsAny(m, SightsWords) then AskAttractions
      else if ContainsAny(m, WeatherWords) then AskWeather
      else if ContainsAny(m, BudgetWords) then AskBudget
      else if ContainsAny(m, HotelWords) then AskHotel
      else AskOther
  {
    var r0 := TopicRules;
    var r1 := r0[1..];
    var r2 := r1[1..];
    var r3 := r2[1..];
    var r4 := r3[1..];
    var r5 := r4[1..];
    var r6 := r5[1..];
    assert r6 == [(AskHotel, HotelWords)];
    FirstTopicStep(r0, m);
    FirstTopicStep(r1, m);
    FirstTopicStep(r2, m);
    FirstTopicStep(r3, m);
    FirstTopicStep(r4, m);
    FirstTopicStep(r5, m);
    FirstTopicStep(r6, m);
    assert r6[1..] == [];
  }

  lemma FirstTopicStep(rules: seq<(Topic, seq<string>)>, m: string)
    requires |rules| > 0
    ensures FirstTopic(rules, m) == if ContainsAny(m, rules[0].1) then rules[0].0 else FirstTopic(rules[1..], m)
  {
  }

  /** The chain of keyword tests answers exactly as the rule table does. */
  lemma ChatFollowsRules(userMessage: string, destination: string)
    ensures GenerateChatResponse(userMessage, destination)
      == TopicReply(Classify(userMessage), destination, KnowledgeOf(ResolveKey(userMessage, destination)))
  {
    RespondFollowsRules(Lower(userMessage), destination, KnowledgeOf(ResolveKey(userMessage, destination)));
  }

  lemma RespondFollowsRules(m: string, destination: string, k: Option<Knowledge>)
    ensures Respond(m, destination, k) == TopicReply(FirstTopic(TopicRules, m), destination, k)
  {
    TopicByRule(m);
  }

  /**
   * "weather" contains "eat", so a message that says "weather" is answered as a food question:
   * the weather rule fires only for messages that say "climate" and not "weather".
   */
  lemma WeatherWordMeansFood(userMessage: string)
    ensures Contains(Lower(userMessage), "weather") ==> Classify(userMessage) == AskFood
    ensures Classify(userMessage) == AskWeather ==>
      Contains(Lower(userMessage), "climate") && !Contains(Lower(userMessage), "weather")
  {
    var m := Lower(userMessage);
    TopicByRule(m);
    WeatherSaysEat(m);
    ChainFood(m);
    ChainWeather(m);
  }

  lemma ChainFood(m: string)
    ensures Contains(m, "eat") ==> ChainTopic(m) == AskFood
  {
  }

  lemma ChainWeather(m: string)
    ensures ChainTopic(m) == AskWeather ==> !Contains(m, "eat") && (Contains(m, "weather") || Contains(m, "climate"))
  {
  }

  /** A message that says "weather" also says "eat". */
  lemma WeatherSaysEat(m: string)
    ensures Contains(m, "weather") ==> Contains(m, "eat")
  {
    assert Contains("weather", "eat") by {
      ContainsAt("weather", "eat", 1);
    }
    if Contains(m, "weather") {
      ContainsTransitive(m, "weather", "eat");
    }
  }

  /** The weather, budget and hotel replies are the same whatever the destination. */
  lemma FixedRepliesIgnoreDestination(userMessage: string, destination1: string, destination2: string)
    requires Classify(userMessage) in {AskWeather, AskBudget, AskHotel}
    ensures GenerateChatResponse(userMessage, destination1) == GenerateChatResponse(userMessage, destination2)
  {
    var m := Lower(userMessage);
    FixedRespond(m, destination1, destination2,
      KnowledgeOf(ResolveKey(userMessage, destination1)), KnowledgeOf(ResolveKey(userMessage, destination2)));
  }

  lemma FixedRespond(m: string, destination1: string, destination2: string, k1: Option<Knowledge>, k2: Option<Knowledge>)
    requires FirstTopic(TopicRules, m) in {AskWeather, AskBudget, AskHotel}
    ensures Respond(m, destination1, k1) == Respond(m, destination2, k2)
  {
    RespondFollowsRules(m, destination1, k1);
    RespondFollowsRules(m, destination2, k2);
  }

  /** The weather, budget, hotel and menu replies do not depend on the city knowledge found. */
  lemma RepliesIgnoringKnowledge(m: string, destination: string, k1: Option<Knowledge>, k2: Option<Knowledge>)
    requires FirstTopic(TopicRules, m) in {AskWeather, AskBudget, AskHotel, AskOther}
    ensures Respond(m, destination, k1) == Respond(m, destination, k2)
  {
    RespondFollowsRules(m, destination, k1);
    RespondFollowsRules(m, destination, k2);
  }

  /**
   * The generic (city-less) answers are given exactly when neither the destination nor the
   * message names one of the four cities; otherwise the reply draws on that city's entry.
   */
  lemma GenericAnswerExactlyWithoutCity(userMessage: string, destination: string)
    ensures KnowledgeOf(ResolveKey(userMessage, destination)).None?
      <==> NoMatch(DestinationKnowledge, Lower(destination)) && NoMatch(DestinationKnowledge, Lower(userMessage))
  {
    var key := ResolveKey(userMessage, destination);
    if key.Some? {
      var q := if NoMatch(DestinationKnowledge, Lower(destination)) then userMessage else destination;
      var i := FirstMatch(DestinationKnowledge, Lower(q)).value;
      assert key == Some(DestinationKnowledge[i].0);
      assert LookupExact(DestinationKnowledge, DestinationKnowledge[i].0).Some?;
    }
  }

  /** Item i appears in the numbered list built from it, on a line numbered i + 1. */
  lemma NumberedListHasItem(items: seq<string>, i: int)
    requires 0 <= i < |items|
    ensures Contains(NumberedList(items), NatToString(i + 1) + ". " + items[i])
    ensures Contains(NumberedList(items), items[i])
  {
    var lines := seq(|items|, j requires 0 <= j < |items| => NatToString(j + 1) + ". " + items[j]);
    JoinContainsPart("\n", lines, i);
    ConcatContains(NatToString(i + 1) + ". ", items[i], "");
    assert NatToString(i + 1) + ". " + items[i] + "" == lines[i];
    ContainsTransitive(NumberedList(items), lines[i], items[i]);
  }

  /**
   * A reply drawn from a city's entry lists every line of that entry on the
   * subject asked about, numbered from 1 in the entry's order.
   */
  lemma KnowledgeRepliesListEveryItem(destination: string, k: Knowledge, i: int)
    requires 0 <= i
    ensures i < |k.foods| ==>
      Contains(FoodReply(destination, Some(k)), NatToString(i + 1) + ". " + k.foods[i])
    ensures i < |k.transportation| ==>
      Contains(TransportReply(destination, Some(k)), NatToString(i + 1) + ". " + k.transportation[i])
    ensures i < |k.tips| ==>
      Contains(TipsReply(destination, Some(k)), NatToString(i + 1) + ". " + k.tips[i])
    ensures i < |k.attractions| ==>
      Contains(AttractionsReply(destination, Some(k)), NatToString(i + 1) + ". " + k.attractions[i])
  {
    if i < |k.foods| {
      NumberedListHasItem(k.foods, i);
      ConcatContains("Great question about food in " + destination + "! Here are my recommendations:\n\n",
        NumberedList(k.foods), "\n\nEnjoy your culinary adventure!");
      ContainsTransitive(
        FoodReply(destination, Some(k)), NumberedList(k.foods), NatToString(i + 1) + ". " + k.foods[i]);
    }
    if i < |k.transportation| {
      NumberedListHasItem(k.transportation, i);
      ConcatContains("Here's how to get around " + destination + ":\n\n",
        NumberedList(k.transportation), "\n\nHappy travels!");
      ContainsTransitive(
        TransportReply(destination, Some(k)), NumberedList(k.transportation), NatToString(i + 1) + ". " + k.transportation[i]);
    }
    if i < |k.tips| {
      NumberedListHasItem(k.tips, i);
      ConcatContains("Important tips for " + destination + ":\n\n", NumberedList(k.tips), "\n\nHave a wonderful trip!");
      ContainsTransitive(
        TipsReply(destination, Some(k)), NumberedList(k.tips), NatToString(i + 1) + ". " + k.tips[i]);
    }
    if i < |k.attractions| {
      NumberedListHasItem(k.attractions, i);
      ConcatContains("Must-know about attractions in " + destination + ":\n\n",
        NumberedList(k.attractions), "\n\nEnjoy exploring!");
      ContainsTransitive(
        AttractionsReply(destination, Some(k)), NumberedList(k.attractions), NatToString(i + 1) + ". " + k.attractions[i]);
    }
  }

  /** A trip to Paris answers from the Paris entry whatever city the message names. */
  lemma ParisTripUsesParis(userMessage: string)
    ensures ResolveKey(userMessage, "Paris") == Some("paris")
  {
    ParisLower(Lower("Paris"));
    assert IsPrefix("paris", Lower("Paris"));
    assert IsFirstMatch(DestinationKnowledge, Lower("Paris"), 0);
  }

  lemma ParisLower(h: string)
    requires h == Lower("Paris")
    ensures h == "paris"
  {
  }
}
