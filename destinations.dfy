/**
 * Destination knowledge and country membership, the two lookups of src/utils/tripGenerator.ts
 * (getDestinationInfo and isInternationalRoute).
 */
module Destinations {
  import opened Basics
  import opened Text

  datatype DestinationProfile = DestinationProfile(
    attractions: seq<string>, restaurants: seq<string>, foods: seq<string>, tips: seq<string>)

  /** destinationData, in declaration order. */
  const DestinationData: seq<(string, DestinationProfile)> := [
    ("paris", DestinationProfile(
      ["Eiffel Tower", "Louvre Museum", "Notre-Dame Cathedral", "Arc de Triomphe",
       "Sacré-Cœur", "Versailles Palace", "Champs-Élysées", "Musée d'Orsay"],
      ["Le Jules Verne", "L'Ambroisie", "Septime", "Le Comptoir du Relais", "Café de Flore"],
      ["Croissants", "Escargot", "Coq au Vin", "Crème Brûlée", "French Onion Soup"],
      ["Learn basic French phrases", "Buy museum passes in advance", "Validate metro tickets",
       "Avoid tourist traps near landmarks"])),
    ("tokyo", DestinationProfile(
      ["Senso-ji Temple", "Tokyo Skytree", "Shibuya Crossing", "Meiji Shrine",
       "Tsukiji Market", "Imperial Palace", "Akihabara", "Tokyo Tower"],
      ["Sukiyabashi Jiro", "Narisawa", "Ichiran Ramen", "Tsuta", "Gonpachi"],
      ["Sushi", "Ramen", "Tempura", "Tonkatsu", "Wagyu Beef"],
      ["Get a Suica card for transportation", "Remove shoes when entering homes",
       "Cash is still preferred in many places", "Learn basic Japanese greetings"])),
    ("new york", DestinationProfile(
      ["Statue of Liberty", "Central Park", "Times Square", "Empire State Building",
       "Brooklyn Bridge", "Metropolitan Museum of Art", "Broadway", "9/11 Memorial"],
      ["Le Bernardin", "Eleven Madison Park", "Peter Luger", "Katz's Delicatessen", "Joe's Pizza"],
      ["New York Pizza", "Bagels", "Hot Dogs", "Cheesecake", "Pastrami Sandwich"],
      ["Use subway for transportation", "Walk between neighborhoods",
       "Book Broadway tickets in advance", "Tip 18-20% at restaurants"])),
    ("london", DestinationProfile(
      ["Big Ben", "Tower of London", "British Museum", "Buckingham Palace",
       "London Eye", "Tower Bridge", "Westminster Abbey", "Natural History Museum"],
      ["The Ledbury", "Dishoom", "Sketch", "Borough Market", "The Ivy"],
      ["Fish and Chips", "Sunday Roast", "Afternoon Tea", "Bangers and Mash", "Shepherd's Pie"],
      ["Get an Oyster card for the Tube", "Stand on the right on escalators",
       "Book popular attractions online", "Tipping is optional but appreciated"]))
  ]

  /** The profile every unmatched destination gets. */
  const GenericProfile := DestinationProfile(
    ["Historic Old Town", "National Museum", "City Center Square", "Local Market",
     "Scenic Viewpoint", "Cultural District", "Riverside Walk", "Art Gallery"],
    ["Local Fine Dining Restaurant", "Traditional Cuisine House", "Popular Street Food Market",
     "Riverside Bistro", "Historic Café"],
    ["Local Specialty Dish", "Regional Delicacy", "Traditional Dessert", "Street Food Favorite"],
    ["Research local customs beforehand", "Learn a few basic phrases",
     "Use public transportation when possible", "Respect local traditions"])

  /** Every profile the planner can hand out has 8 attractions, 5 restaurants and 4 tips. */
  predicate StandardShape(p: DestinationProfile)
  {
    |p.attractions| == 8 && |p.restaurants| == 5 && |p.tips| == 4
  }

  /**
   * getDestinationInfo: the profile of the first key, in declaration order, occurring in the
   * lower-cased destination; the generic profile when none does.
   */
  function GetDestinationInfo(destination: string): (p: DestinationProfile)
    ensures NoMatch(DestinationData, Lower(destination)) ==> p == GenericProfile
    ensures forall i :: IsFirstMatch(DestinationData, Lower(destination), i) ==> p == DestinationData[i].1
  {
    LookupFirst(DestinationData, Lower(destination), GenericProfile)
  }

  /** Whatever the destination, the profile has the standard shape. */
  lemma ProfileShape(destination: string)
    ensures StandardShape(GetDestinationInfo(destination))
    ensures |GetDestinationInfo(destination).foods| in {4, 5}
  {
    match FirstMatch(DestinationData, Lower(destination))
    case None =>
    case Some(i) =>
      assert i < 4;
      assert StandardShape(DestinationData[i].1) && |DestinationData[i].1.foods| == 5 by {
        assert i == 0 || i == 1 || i == 2 || i == 3;
      }
  }

  /** The countries table of isInternationalRoute, in declaration order. */
  const Countries: seq<(string, seq<string>)> := [
    ("usa", ["new york", "los angeles", "chicago", "miami", "san francisco", "usa", "america"]),
    ("japan", ["tokyo", "osaka", "kyoto", "japan"]),
    ("france", ["paris", "lyon", "marseille", "france"]),
    ("uk", ["london", "manchester", "edinburgh", "uk", "united kingdom"]),
    ("india", ["delhi", "mumbai", "bangalore", "chennai", "kolkata", "india"]),
    ("uae", ["dubai", "abu dhabi", "uae"]),
    ("thailand", ["bangkok", "phuket", "thailand"]),
    ("australia", ["sydney", "melbourne", "australia"])
  ]

  /** Entry `j` of `table` lists a city occurring in `s`. */
  predicate CountryMatches(table: seq<(string, seq<string>)>, s: string, j: int)
    requires 0 <= j < |table|
  {
    ContainsAny(s, table[j].1)
  }

  /**
   * The country the overwriting loop ends with: the key of the LAST entry whose city list has a
   * member occurring in `s`, or "" when no entry matches.
   */
  function CountryOf(table: seq<(string, seq<string>)>, s: string): string
  {
    if |table| == 0 then ""
    else if ContainsAny(s, table[|table| - 1].1) then table[|table| - 1].0
    else CountryOf(table[..|table| - 1], s)
  }

  /** Entry `j` is the last entry of `table` listing a city that occurs in `s`. */
  predicate IsLastCountryMatch(table: seq<(string, seq<string>)>, s: string, j: int)
  {
    && 0 <= j < |table|
    && CountryMatches(table, s, j)
    && forall k :: j < k < |table| ==> !CountryMatches(table, s, k)
  }

  /** CountryOf is the last match, and "" exactly when nothing matches (all keys being non-empty). */
  lemma {:induction false} CountryOfIsLastMatch(table: seq<(string, seq<string>)>, s: string)
    requires forall j :: 0 <= j < |table| ==> table[j].0 != ""
    ensures CountryOf(table, s) == "" <==> forall j :: 0 <= j < |table| ==> !CountryMatches(table, s, j)
    ensures forall j :: IsLastCountryMatch(table, s, j) ==> CountryOf(table, s) == table[j].0
  {
    if |table| > 0 {
      var n := |table| - 1;
      var front := table[..n];
      CountryOfIsLastMatch(front, s);
      assert forall j :: 0 <= j < n ==> front[j] == table[j];
      assert forall j :: 0 <= j < n ==> (CountryMatches(table, s, j) <==> CountryMatches(front, s, j));
      if CountryMatches(table, s, n) {
        assert CountryOf(table, s) == table[n].0;
      } else {
        assert CountryOf(table, s) == CountryOf(front, s);
        forall j | IsLastCountryMatch(table, s, j)
          ensures CountryOf(table, s) == table[j].0
        {
          assert j < n;
          assert IsLastCountryMatch(front, s, j);
        }
      }
    }
  }

  /** isInternationalRoute as a value: both sides resolve to a country and the countries differ. */
  function InternationalRoute(start: string, dest: string): (r: bool)
  {
    var startCountry := CountryOf(Countries, Lower(start));
    var destCountry := CountryOf(Countries, Lower(dest));
    startCountry != destCountry && startCountry != "" && destCountry != ""
  }

  /** An origin or destination that names no known city is never international. */
  lemma UnresolvedIsDomestic(start: string, dest: string)
    requires (forall j :: 0 <= j < |Countries| ==> !CountryMatches(Countries, Lower(start), j))
          || (forall j :: 0 <= j < |Countries| ==> !CountryMatches(Countries, Lower(dest), j))
    ensures !InternationalRoute(start, dest)
  {
    CountryOfIsLastMatch(Countries, Lower(start));
    CountryOfIsLastMatch(Countries, Lower(dest));
  }

  /** The route's international flag does not depend on its direction. */
  lemma InternationalSymmetric(start: string, dest: string)
    ensures InternationalRoute(start, dest) == InternationalRoute(dest, start)
  {
  }

  /**
   * isInternationalRoute: one pass over the countries table in which every matching entry
   * overwrites startCountry / destCountry.
   */
  method IsInternationalRoute(start: string, dest: string) returns (international: bool)
    ensures international == InternationalRoute(start, dest)
  {
    var startLower := Lower(start);
    var destLower := Lower(dest);
    var startCountry := "";
    var destCountry := "";
    for i := 0 to |Countries|
      invariant startCountry == CountryOf(Countries[..i], startLower)
      invariant destCountry == CountryOf(Countries[..i], destLower)
    {
      var (country, cities) := Countries[i];
      assert Countries[..i + 1][..i] == Countries[..i];
      if ContainsAny(startLower, cities) {
        startCountry := country;
      }
      if ContainsAny(destLower, cities) {
        destCountry := country;
      }
    }
    assert Countries[..|Countries|] == Countries;
    international := startCountry != destCountry && startCountry != "" && destCountry != "";
  }
}
