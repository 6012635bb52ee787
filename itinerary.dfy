/** One day of a trip plan (generateDayItinerary in src/utils/tripGenerator.ts). */
module Itinerary {
  import opened Basics
  import opened Destinations

  /** A day's plan; `date` is the day's offset in days from the start date. */
  datatype DayItinerary = DayItinerary(
    day: int, date: int, activities: seq<string>, attractions: seq<string>,
    restaurants: seq<string>, localTips: seq<string>)

  /**
   * `xs[i]` as JavaScript reads it: an index outside the list (negative, too large, or the NaN
   * produced by a remainder by zero) gives undefined, written here as "" since both are falsy.
   */
  function At(xs: seq<string>, i: int): (x: string)
    ensures 0 <= i < |xs| ==> x == xs[i]
    ensures !(0 <= i < |xs|) ==> x == ""
  {
    if 0 <= i < |xs| then xs[i] else ""
  }

  /** `xs[k % xs.length]`, which is undefined for an empty list. */
  function AtRem(xs: seq<string>, k: int): (x: string)
    ensures |xs| > 0 && k >= 0 ==> x == xs[k % |xs|]
    ensures |xs| == 0 || (k < 0 && JsRem(k, |xs|) != 0) ==> x == ""
  {
    if |xs| == 0 then "" else At(xs, JsRem(k, |xs|))
  }

  /** `text || fallback` on a string. */
  function OrElse(text: string, fallback: string): (r: string)
    ensures text != "" ==> r == text
    ensures text == "" ==> r == fallback
  {
    if text == "" then fallback else text
  }

  /** `.filter(Boolean)` on strings: the non-empty entries, in order. */
  function Truthy(xs: seq<string>): (r: seq<string>)
    ensures |r| <= |xs|
    ensures forall x :: x in r <==> x in xs && x != ""
  {
    if |xs| == 0 then []
    else if xs[0] == "" then Truthy(xs[1..])
    else [xs[0]] + Truthy(xs[1..])
  }

  /** Filtering drops every empty entry and keeps each non-empty one as often as it occurs. */
  lemma {:induction false} TruthyCounts(xs: seq<string>)
    ensures multiset(Truthy(xs)) == multiset(xs)["" := 0]
    decreases |xs|
  {
    if |xs| > 0 {
      assert xs == [xs[0]] + xs[1..];
      assert multiset(xs) == multiset{xs[0]} + multiset(xs[1..]);
      TruthyCounts(xs[1..]);
      if xs[0] != "" {
        assert multiset(Truthy(xs)) == multiset{xs[0]} + multiset(Truthy(xs[1..]));
      }
    }
  }

  /** A list without empty entries passes the filter unchanged. */
  lemma {:induction false} TruthyKeepsNonEmpty(xs: seq<string>)
    requires forall i :: 0 <= i < |xs| ==> xs[i] != ""
    ensures Truthy(xs) == xs
    decreases |xs|
  {
    if |xs| > 0 {
      TruthyKeepsNonEmpty(xs[1..]);
    }
  }

  /** Filtering a concatenation filters each part and keeps their order. */
  lemma {:induction false} TruthyAppend(s: seq<string>, t: seq<string>)
    ensures Truthy(s + t) == Truthy(s) + Truthy(t)
    decreases |s|
  {
    if |s| > 0 {
      assert (s + t)[1..] == s[1..] + t;
      TruthyAppend(s[1..], t);
    } else {
      assert s + t == t;
    }
  }

  /** The day's first attraction index: days advance by three attractions (fewer on short lists). */
  function StartIndex(day: int, n: int): int
    requires n > 0
  {
    JsRem((day - 1) * MinInt(3, n), n)
  }

  /** attractions[startIdx], attractions[(startIdx + 1) % n] and attractions[(startIdx + 2) % n]. */
  function DayAttractionSlots(day: int, attractions: seq<string>): (slots: seq<string>)
    ensures |slots| == 3
  {
    if |attractions| == 0 then ["", "", ""]
    else
      var s := StartIndex(day, |attractions|);
      [At(attractions, s), AtRem(attractions, s + 1), AtRem(attractions, s + 2)]
  }

  const Breakfast := "Morning: Breakfast and prepare for the day"
  const Lunch := "Lunch at a local restaurant"

  /** The five activities of a day around its visit, its afternoon and its evening. */
  function Activities(visit: string, explore: string, evening: string): seq<string>
  {
    [Breakfast, "Visit " + visit, Lunch, "Explore " + explore, "Evening: " + evening]
  }

  function GenerateDayItinerary(day: int, date: int, info: DestinationProfile): (d: DayItinerary)
    ensures d.day == day && d.date == date
    ensures |d.activities| == 5 && d.activities[0] == Breakfast && d.activities[2] == Lunch
    ensures |d.attractions| <= 3 && forall x :: x in d.attractions ==> x != ""
    ensures |d.restaurants| == 2 && |d.localTips| <= 2
    ensures |d.localTips| == MinInt(2, |info.tips|) && d.localTips == info.tips[..|d.localTips|]
  {
    var slots := DayAttractionSlots(day, info.attractions);
    DayItinerary(
      day,
      date,
      Activities(
        OrElse(slots[0], "local attraction"),
        OrElse(slots[1], "nearby area"),
        OrElse(slots[2], "Leisure time")),
      Truthy(slots),
      [AtRem(info.restaurants, day), AtRem(info.restaurants, day + 1)],
      info.tips[..MinInt(2, |info.tips|)])
  }

  /** On a real day (day >= 1) the start index is the plain remainder, so it is in range. */
  lemma StartIndexOnRealDays(day: int, n: int)
    requires day >= 1 && n > 0
    ensures StartIndex(day, n) == ((day - 1) * MinInt(3, n)) % n
    ensures 0 <= StartIndex(day, n) < n
  {
    assert (day - 1) * MinInt(3, n) >= 0;
  }

  /**
   * On a real day of a destination with attractions, the day reads the attractions at
   * startIdx, startIdx + 1 and startIdx + 2 modulo their number, every index in range.
   */
  lemma DayAttractions(day: int, date: int, info: DestinationProfile)
    requires day >= 1 && |info.attractions| > 0
    ensures var n := |info.attractions|;
      var s := ((day - 1) * MinInt(3, n)) % n;
      GenerateDayItinerary(day, date, info).attractions
        == Truthy([info.attractions[s], info.attractions[(s + 1) % n], info.attractions[(s + 2) % n]])
  {
    StartIndexOnRealDays(day, |info.attractions|);
  }

  /** On a real day of a destination with restaurants, the day reads those at day and day + 1 modulo their number. */
  lemma DayRestaurants(day: int, date: int, info: DestinationProfile)
    requires day >= 1 && |info.restaurants| > 0
    ensures var m := |info.restaurants|;
      GenerateDayItinerary(day, date, info).restaurants == [info.restaurants[day % m], info.restaurants[(day + 1) % m]]
  {
  }

  /** When the three attraction slots are filled, the day lists them and its activities name them in order. */
  lemma ActivitiesNameAttractions(day: int, date: int, info: DestinationProfile)
    requires var slots := DayAttractionSlots(day, info.attractions);
      slots[0] != "" && slots[1] != "" && slots[2] != ""
    ensures var slots := DayAttractionSlots(day, info.attractions);
      var d := GenerateDayItinerary(day, date, info);
      d.attractions == slots && d.activities == Activities(slots[0], slots[1], slots[2])
  {
    var slots := DayAttractionSlots(day, info.attractions);
    assert Truthy(slots) == [slots[0]] + Truthy(slots[1..]);
    assert Truthy(slots[1..]) == [slots[1]] + Truthy(slots[2..]);
    assert Truthy(slots[2..]) == [slots[2]] + Truthy(slots[3..]);
  }

  /** A destination without attractions gets the three fallback activities and no attractions. */
  lemma NoAttractionsFallback(day: int, date: int, info: DestinationProfile)
    requires |info.attractions| == 0
    ensures var d := GenerateDayItinerary(day, date, info);
      d.attractions == [] && d.activities == Activities("local attraction", "nearby area", "Leisure time")
  {
    var slots := DayAttractionSlots(day, info.attractions);
    assert slots == ["", "", ""];
    assert Truthy(slots[2..]) == [];
    assert Truthy(slots[1..]) == [];
  }

  /** With at least three attractions, consecutive days start three attractions apart. */
  lemma DaysAdvanceByThree(day: int, n: int)
    requires day >= 1 && n >= 3
    ensures StartIndex(day + 1, n) == (StartIndex(day, n) + 3) % n
  {
    var a := (day - 1) * 3;
    assert StartIndex(day, n) == a % n;
    assert StartIndex(day + 1, n) == (a + 3) % n;
    assert a == n * (a / n) + a % n;
    ModShift(a + 3, a % n + 3, n, a / n);
  }

  /** With at least three attractions, one day never lists the same slot twice. */
  lemma DaySlotsDistinct(day: int, n: int)
    requires day >= 1 && n >= 3
    ensures var s := StartIndex(day, n);
      s != (s + 1) % n && s != (s + 2) % n && (s + 1) % n != (s + 2) % n
  {
    StartIndexOnRealDays(day, n);
    var s := StartIndex(day, n);
    WrapAround(s + 1, n);
    WrapAround(s + 2, n);
  }

  /** An index at most one lap past the end wraps to the front. */
  lemma WrapAround(x: int, n: int)
    requires n > 0 && 0 <= x < 2 * n
    ensures x % n == if x < n then x else x - n
  {
    if x >= n {
      ModShift(x, x - n, n, 1);
    }
  }

  /** With the standard eight attractions, eight consecutive days start at eight different places. */
  lemma EightDayRotation(n: int)
    requires n == 8
    ensures seq(8, i requires 0 <= i < 8 => StartIndex(i + 1, n)) == [0, 3, 6, 1, 4, 7, 2, 5]
    ensures StartIndex(9, n) == StartIndex(1, n)
  {
  }
}
