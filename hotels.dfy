/** The hotel slate of a trip plan (generateHotels in src/utils/tripGenerator.ts). */
module Hotels {
  import opened Basics

  datatype Category = Luxury | Comfort | Economy

  datatype Hotel = Hotel(
    name: string,
    rating: int,
    pricePerNight: int,
    category: Category,
    description: string,
    nearbyAttractions: seq<string>,
    amenities: seq<string>,
    location: string
  )

  /** The star rating every hotel of a tier carries. */
  function TierRating(c: Category): int
  {
    match c
    case Luxury => 5
    case Comfort => 4
    case Economy => 3
  }

  /** The nightly price no hotel of a tier exceeds. */
  function TierCap(c: Category): int
  {
    match c
    case Luxury => 400
    case Comfort => 200
    case Economy => 120
  }

  /** Forty percent of the budget, spread over the nights. */
  function BudgetPerNight(budget: real, nights: int): (r: real)
    requires nights >= 1
    ensures budget >= 0.0 ==> 0.0 <= r <= budget * 0.4
  {
    budget * 0.4 / nights as real
  }

  /** A tier's base price: a share of the nightly budget, capped. */
  function TierBase(budgetPerNight: real, share: real, cap: real): (r: real)
    ensures r <= cap
    ensures r <= budgetPerNight * share
    ensures r == budgetPerNight * share || r == cap
  {
    if budgetPerNight * share <= cap then budgetPerNight * share else cap
  }

  /** The six hotels in the order they are pushed, each with its price still unset (0). */
  const Slate: seq<Hotel> := [
    Hotel("Grand Luxury Hotel", 5, 0, Luxury,
          "Five-star luxury with world-class amenities and exceptional service",
          ["City Center", "Shopping District", "Fine Dining Area"],
          ["Free WiFi", "Pool", "Gym", "Spa", "Restaurant", "Room Service", "Concierge", "Valet Parking"],
          "Prime City Center"),
    Hotel("Royal Palace Hotel", 5, 0, Luxury,
          "Elegant accommodation with premium facilities and stunning views",
          ["Historic District", "Cultural Center", "Upscale Shopping"],
          ["Free WiFi", "Pool", "Fine Dining", "Spa", "Business Center", "Airport Shuttle"],
          "Exclusive District"),
    Hotel("Comfort Plaza Hotel", 4, 0, Comfort,
          "Modern four-star hotel with excellent service and convenient location",
          ["Main Attractions", "Transport Hub", "Shopping Area"],
          ["Free WiFi", "Restaurant", "Bar", "Gym", "Meeting Rooms", "Breakfast Included"],
          "Central District"),
    Hotel("Downtown Suites", 4, 0, Comfort,
          "Stylish hotel in the heart of downtown with great amenities",
          ["Business District", "Entertainment Area", "Restaurants"],
          ["Free WiFi", "Kitchenette", "Gym", "Lounge", "Daily Housekeeping"],
          "Downtown Core"),
    Hotel("City Budget Inn", 3, 0, Economy,
          "Clean, comfortable budget accommodation with essential amenities",
          ["Metro Station", "Local Markets", "Parks"],
          ["Free WiFi", "Breakfast", "Air Conditioning", "24/7 Front Desk"],
          "Accessible Location"),
    Hotel("Smart Stay Hotel", 3, 0, Economy,
          "Great value hotel with modern amenities and friendly service",
          ["Public Transport", "Local Dining", "Tourist Info Center"],
          ["Free WiFi", "Self Check-in", "Shared Kitchen", "Laundry"],
          "Transit-Friendly Area")
  ]

  /** Slots 0-1 are luxury, 2-3 comfort and 4-5 budget, each rated as its tier. */
  function SlotCategory(i: int): Category
  {
    if i < 2 then Luxury else if i < 4 then Comfort else Economy
  }

  lemma SlateTiers()
    ensures |Slate| == 6
    ensures forall i :: 0 <= i < 6 ==> Slate[i].category == SlotCategory(i)
    ensures forall i :: 0 <= i < 6 ==> Slate[i].rating == TierRating(SlotCategory(i))
  {
  }

  /** No two slate entries coincide: within a tier the names already differ in their first letter. */
  lemma SlateDistinct()
    ensures forall m, n :: 0 <= m < n < 6 ==>
      Slate[m].category != Slate[n].category || Slate[m].name[0] != Slate[n].name[0]
  {
    SlateTiers();
    assert Slate[0].name[0] == 'G' && Slate[1].name[0] == 'R';
    assert Slate[2].name[0] == 'C' && Slate[3].name[0] == 'D';
    assert Slate[4].name[0] == 'C' && Slate[5].name[0] == 'S';
  }

  /** The six nightly prices, in slate order: each tier's capped base, then its discount. */
  function SlatePrices(budget: real, nights: int): (p: seq<int>)
    requires nights >= 1
    ensures |p| == 6
  {
    var perNight := BudgetPerNight(budget, nights);
    var luxury := TierBase(perNight, 0.8, 400.0);
    var comfort := TierBase(perNight, 0.7, 200.0);
    var economy := TierBase(perNight, 0.6, 120.0);
    [Round(luxury), Round(luxury * 0.95), Round(comfort), Round(comfort * 0.9), Round(economy), Round(economy * 0.85)]
  }

  /** The six hotels in the order they are pushed, priced, before sorting. */
  function BuildHotels(budget: real, nights: int): (hs: seq<Hotel>)
    requires nights >= 1
    ensures |hs| == 6
    ensures forall i :: 0 <= i < 6 ==> hs[i] == Slate[i].(pricePerNight := SlatePrices(budget, nights)[i])
  {
    SlateTiers();
    var p := SlatePrices(budget, nights);
    seq(6, i requires 0 <= i < 6 => Slate[i].(pricePerNight := p[i]))
  }

  /**
   * The sort comparator's order, read as "may stand before": a higher rating first,
   * and within a rating the cheaper hotel first.
   */
  predicate Precedes(a: Hotel, b: Hotel)
  {
    a.rating > b.rating || (a.rating == b.rating && a.pricePerNight <= b.pricePerNight)
  }

  predicate SortedByRank(s: seq<Hotel>)
  {
    forall i, j :: 0 <= i < j < |s| ==> Precedes(s[i], s[j])
  }

  /** Any two hotels are comparable, and the order is transitive: sorting by it is well defined. */
  lemma PrecedesTotalPreorder(a: Hotel, b: Hotel, c: Hotel)
    ensures Precedes(a, b) || Precedes(b, a)
    ensures Precedes(a, b) && Precedes(b, c) ==> Precedes(a, c)
  {
  }

  /**
   * Every price is at most its tier's cap. With a budget that is not negative every price
   * is non-negative and the discounted second hotel of a tier never costs more than the first.
   */
  lemma SlatePriceBounds(budget: real, nights: int)
    requires nights >= 1
    ensures var p := SlatePrices(budget, nights);
      forall i :: 0 <= i < 6 ==> p[i] <= TierCap(SlotCategory(i))
    ensures var p := SlatePrices(budget, nights);
      budget >= 0.0 ==> forall i :: 0 <= i < 6 ==> p[i] >= 0
    ensures var p := SlatePrices(budget, nights);
      budget >= 0.0 ==> p[1] <= p[0] && p[3] <= p[2] && p[5] <= p[4]
  {
    var perNight := BudgetPerNight(budget, nights);
    TierPriceBounds(perNight, 0.8, 400, 0.95);
    TierPriceBounds(perNight, 0.7, 200, 0.9);
    TierPriceBounds(perNight, 0.6, 120, 0.85);
  }

  /** Each built hotel is rated as its tier and priced at most at its tier's cap. */
  lemma HotelPriceBounds(budget: real, nights: int)
    requires nights >= 1
    ensures var hs := BuildHotels(budget, nights);
      forall i :: 0 <= i < |hs| ==>
        hs[i].rating == TierRating(hs[i].category) && hs[i].pricePerNight <= TierCap(hs[i].category)
    ensures var hs := BuildHotels(budget, nights);
      budget >= 0.0 ==> forall i :: 0 <= i < |hs| ==> hs[i].pricePerNight >= 0
    ensures var hs := BuildHotels(budget, nights);
      budget >= 0.0 ==>
        && hs[1].pricePerNight <= hs[0].pricePerNight
        && hs[3].pricePerNight <= hs[2].pricePerNight
        && hs[5].pricePerNight <= hs[4].pricePerNight
  {
    SlateTiers();
    SlatePriceBounds(budget, nights);
  }

  /** The two prices of one tier: the capped base and its discount. */
  lemma TierPriceBounds(perNight: real, share: real, cap: int, discount: real)
    requires 0.0 < share < 1.0 && cap >= 0 && 0.0 < discount < 1.0
    ensures Round(TierBase(perNight, share, cap as real)) <= cap
    ensures Round(TierBase(perNight, share, cap as real) * discount) <= cap
    ensures perNight >= 0.0 ==> Round(TierBase(perNight, share, cap as real) * discount) >= 0
    ensures perNight >= 0.0 ==>
      Round(TierBase(perNight, share, cap as real) * discount) <= Round(TierBase(perNight, share, cap as real))
  {
    var base := TierBase(perNight, share, cap as real);
    RoundMonotone(base, cap as real);
    RoundOfInteger(cap);
    RoundOfInteger(0);
    if perNight >= 0.0 {
      ShrinkingFactor(perNight, share);
      assert base >= 0.0;
    }
    var discounted := base * discount;
    if base >= 0.0 {
      ShrinkingFactor(base, discount);
      assert 0.0 <= discounted <= base;
      RoundMonotone(discounted, base);
      RoundMonotone(0.0, discounted);
    } else {
      NegativeTimesPositive(base, discount);
      RoundMonotone(discounted, 0.0);
    }
  }

  /** With a negative budget the discount raises the price: Royal Palace then costs more than Grand Luxury. */
  lemma NegativeBudgetInvertsDiscount()
    ensures SlatePrices(-1000.0, 1)[0] == -320
    ensures SlatePrices(-1000.0, 1)[1] == -304
  {
    RoundOfInteger(-320);
    RoundOfInteger(-304);
  }

  /** Stable insertion sort of the slate by rank, in place, as Array.prototype.sort with the comparator. */
  method SortByRank(a: array<Hotel>)
    modifies a
    ensures SortedByRank(a[..])
    ensures multiset(a[..]) == multiset(old(a[..]))
  {
    var i := 0;
    while i < a.Length
      invariant 0 <= i <= a.Length
      invariant forall k, l :: 0 <= k < l < i ==> Precedes(a[k], a[l])
      invariant multiset(a[..]) == multiset(old(a[..]))
    {
      InsertIntoSorted(a, i);
      i := i + 1;
    }
  }

  /** Moves a[i] left past every hotel it must stand before, keeping a[..i+1] sorted. */
  method InsertIntoSorted(a: array<Hotel>, i: int)
    requires 0 <= i < a.Length
    requires forall k, l :: 0 <= k < l < i ==> Precedes(a[k], a[l])
    modifies a
    ensures forall k, l :: 0 <= k < l <= i ==> Precedes(a[k], a[l])
    ensures multiset(a[..]) == multiset(old(a[..]))
  {
    var j := i;
    while j > 0 && !Precedes(a[j - 1], a[j])
      invariant 0 <= j <= i
      invariant forall k, l :: 0 <= k < l < j ==> Precedes(a[k], a[l])
      invariant forall k, l :: j < k < l <= i ==> Precedes(a[k], a[l])
      invariant forall l :: j < l <= i ==> Precedes(a[j], a[l])
      invariant forall k, l :: 0 <= k < j < l <= i ==> Precedes(a[k], a[l])
      invariant multiset(a[..]) == multiset(old(a[..]))
    {
      Swap(a, j - 1, j);
      j := j - 1;
    }
  }

  method Swap(a: array<Hotel>, i: int, j: int)
    requires 0 <= i < j < a.Length
    modifies a
    ensures a[i] == old(a[j]) && a[j] == old(a[i])
    ensures forall m :: 0 <= m < a.Length && m != i && m != j ==> a[m] == old(a[m])
    ensures multiset(a[..]) == multiset(old(a[..]))
  {
    a[i], a[j] := a[j], a[i];
  }

  /** The ratings of the slate, slot by slot. */
  const SlotRatings: seq<int> := [5, 5, 4, 4, 3, 3]

  /**
   * Ratings in non-increasing order that place each slot's rating at its own, pairwise
   * distinct, position are exactly the slot ratings.
   */
  lemma NonIncreasingRatingsAreSlotRatings(r: seq<int>, pos: seq<int>)
    requires |r| == 6 && |pos| == 6
    requires forall i, j :: 0 <= i < j < 6 ==> r[i] >= r[j]
    requires forall m :: 0 <= m < 6 ==> 0 <= pos[m] < 6 && r[pos[m]] == SlotRatings[m]
    requires forall m, n :: 0 <= m < n < 6 ==> pos[m] != pos[n]
    ensures r == SlotRatings
  {
    // Each bound picks, among a few distinct positions, one that lies on the right side of i.
    var p0, p1, p2, p3, p4, p5 := pos[0], pos[1], pos[2], pos[3], pos[4], pos[5];
    assert p0 >= 1 || p1 >= 1;
    assert r[1] >= 5;
    assert p0 >= 3 || p1 >= 3 || p2 >= 3 || p3 >= 3;
    assert r[3] >= 4;
    assert p0 >= 5 || p1 >= 5 || p2 >= 5 || p3 >= 5 || p4 >= 5 || p5 >= 5;
    assert r[5] >= 3;
    assert p0 <= 0 || p1 <= 0 || p2 <= 0 || p3 <= 0 || p4 <= 0 || p5 <= 0;
    assert r[0] <= 5;
    assert p2 <= 2 || p3 <= 2 || p4 <= 2 || p5 <= 2;
    assert r[2] <= 4;
    assert p4 <= 4 || p5 <= 4;
    assert r[4] <= 3;
  }

  /** The built slate: slot tiers and ratings, and no two hotels alike. */
  lemma BuiltSlateShape(budget: real, nights: int)
    requires nights >= 1
    ensures var hs := BuildHotels(budget, nights);
      forall m :: 0 <= m < 6 ==> hs[m].category == SlotCategory(m) && hs[m].rating == SlotRatings[m]
    ensures var hs := BuildHotels(budget, nights);
      forall m, n :: 0 <= m < n < 6 ==> hs[m] != hs[n]
  {
    SlateTiers();
    SlateDistinct();
  }

  /**
   * A ranked permutation of the slate lists the two luxury hotels first, then the two
   * comfort hotels, then the two budget hotels.
   */
  lemma RankedSlateTiers(s: seq<Hotel>, budget: real, nights: int)
    requires nights >= 1
    requires multiset(s) == multiset(BuildHotels(budget, nights))
    requires SortedByRank(s)
    ensures |s| == 6
    ensures forall i :: 0 <= i < 6 ==> s[i].category == SlotCategory(i) && s[i].rating == SlotRatings[i]
  {
    var hs := BuildHotels(budget, nights);
    assert |s| == |multiset(s)| == |multiset(hs)| == 6;
    BuiltSlateShape(budget, nights);
    var pos := Positions(s, hs);
    var src := Positions(hs, s);
    RankedRatings(s, hs, pos);
    RankedCategories(s, hs, src);
  }

  /** Ranked, six distinct hotels laid out tier by tier carry the slot ratings in slot order. */
  lemma RankedRatings(s: seq<Hotel>, hs: seq<Hotel>, pos: seq<int>)
    requires |hs| == 6 && |s| == 6 && |pos| == 6
    requires forall m :: 0 <= m < 6 ==> hs[m].rating == SlotRatings[m]
    requires forall m, n :: 0 <= m < n < 6 ==> hs[m] != hs[n]
    requires forall m :: 0 <= m < 6 ==> 0 <= pos[m] < 6 && s[pos[m]] == hs[m]
    requires SortedByRank(s)
    ensures forall i :: 0 <= i < 6 ==> s[i].rating == SlotRatings[i]
  {
    PositionsDistinct(s, hs, pos);
    var r := RatingsOf(s);
    NonIncreasingRatingsAreSlotRatings(r, pos);
    assert forall i :: 0 <= i < 6 ==> r[i] == SlotRatings[i];
  }

  /** ... and then the slot categories, since each rating belongs to one tier. */
  lemma RankedCategories(s: seq<Hotel>, hs: seq<Hotel>, src: seq<int>)
    requires |hs| == 6 && |s| == 6 && |src| == 6
    requires forall m :: 0 <= m < 6 ==> hs[m].category == SlotCategory(m) && hs[m].rating == SlotRatings[m]
    requires forall i :: 0 <= i < 6 ==> 0 <= src[i] < 6 && hs[src[i]] == s[i]
    requires forall i :: 0 <= i < 6 ==> s[i].rating == SlotRatings[i]
    ensures forall i :: 0 <= i < 6 ==> s[i].category == SlotCategory(i)
  {
    forall i | 0 <= i < 6
      ensures s[i].category == SlotCategory(i)
    {
      RatingFixesCategory(src[i], i);
    }
  }

  lemma PositionsDistinct(s: seq<Hotel>, hs: seq<Hotel>, pos: seq<int>)
    requires |hs| == 6 && |s| == 6 && |pos| == 6
    requires forall m, n :: 0 <= m < n < 6 ==> hs[m] != hs[n]
    requires forall m :: 0 <= m < 6 ==> 0 <= pos[m] < 6 && s[pos[m]] == hs[m]
    ensures forall m, n :: 0 <= m < n < 6 ==> pos[m] != pos[n]
  {
    forall m, n | 0 <= m < n < 6
      ensures pos[m] != pos[n]
    {
      assert s[pos[m]] != s[pos[n]];
    }
  }

  /** The ratings of a ranked list, which never increase. */
  lemma RatingsOf(s: seq<Hotel>) returns (r: seq<int>)
    requires SortedByRank(s)
    ensures |r| == |s|
    ensures forall i :: 0 <= i < |s| ==> r[i] == s[i].rating
    ensures forall i, j :: 0 <= i < j < |r| ==> r[i] >= r[j]
  {
    r := seq(|s|, i requires 0 <= i < |s| => s[i].rating);
    forall i, j | 0 <= i < j < |r|
      ensures r[i] >= r[j]
    {
      assert Precedes(s[i], s[j]);
    }
  }

  lemma RatingFixesCategory(m: int, i: int)
    requires 0 <= m < 6 && 0 <= i < 6
    requires SlotRatings[m] == SlotRatings[i]
    ensures SlotCategory(m) == SlotCategory(i)
  {
  }

  /** Where each built hotel stands in a permutation of the slate. */
  lemma Positions(s: seq<Hotel>, hs: seq<Hotel>) returns (pos: seq<int>)
    requires |s| == |hs| == 6
    requires multiset(s) == multiset(hs)
    ensures |pos| == 6
    ensures forall m :: 0 <= m < 6 ==> 0 <= pos[m] < 6 && s[pos[m]] == hs[m]
  {
    pos := [];
    for m := 0 to 6
      invariant |pos| == m
      invariant forall n :: 0 <= n < m ==> 0 <= pos[n] < 6 && s[pos[n]] == hs[n]
    {
      assert hs[m] in multiset(s);
      var k :| 0 <= k < 6 && s[k] == hs[m];
      pos := pos + [k];
    }
  }

  /**
   * generateHotels: the six built hotels, sorted by rating (highest first) and then by price
   * (cheapest first). The preference and the destination play no part.
   */
  method GenerateHotels(preference: string, budget: real, nights: int, destination: string)
    returns (hotels: seq<Hotel>)
    requires nights >= 1
    ensures |hotels| == 6
    ensures multiset(hotels) == multiset(BuildHotels(budget, nights))
    ensures SortedByRank(hotels)
    ensures forall h :: h in hotels ==>
      h.rating == TierRating(h.category) && h.pricePerNight <= TierCap(h.category)
    ensures budget >= 0.0 ==> forall h :: h in hotels ==> h.pricePerNight >= 0
    ensures forall i :: 0 <= i < 6 ==> hotels[i].category == SlotCategory(i) && hotels[i].rating == SlotRatings[i]
  {
    var built := BuildHotels(budget, nights);
    var allHotels := new Hotel[6](k requires 0 <= k < 6 => built[k]);
    assert allHotels[..] == built;
    SortByRank(allHotels);
    hotels := allHotels[..];
    assert |multiset(hotels)| == |multiset(built)|;
    HotelPriceBounds(budget, nights);
    forall h | h in hotels
      ensures h.rating == TierRating(h.category) && h.pricePerNight <= TierCap(h.category)
      ensures budget >= 0.0 ==> h.pricePerNight >= 0
    {
      assert h in multiset(built);
    }
    RankedSlateTiers(hotels, budget, nights);
  }
}
