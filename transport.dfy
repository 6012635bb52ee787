/** Transport feasibility and cost (checkTransportFeasibility in src/utils/tripGenerator.ts). */
module Transport {
  import opened Basics
  import opened Text
  import opened Destinations

  /** TransportInfo: alternatives and message are present only on an infeasible result. */
  datatype TransportInfo = TransportInfo(
    mode: string, feasible: bool, alternatives: Option<seq<string>>, estimatedCost: int,
    duration: string, message: Option<string>)

  const UnavailableMessage := "This transport mode is unavailable for your route. Try a flight or another feasible option."

  /** A train or bus is refused on an international route. */
  function Unavailable(mode: string): TransportInfo
  {
    TransportInfo(mode, false, Some(["Flight"]), 0, "", Some(UnavailableMessage))
  }

  function Available(mode: string, cost: int, duration: string): TransportInfo
  {
    TransportInfo(mode, true, None, cost, duration, None)
  }

  /**
   * checkTransportFeasibility: a flight always goes (600 / 8-12 hours abroad, 250 / 2-4 hours at
   * home); a train (150) or bus (80) goes only on a domestic route; any other mode, the empty one
   * included, falls back to a 500, 8-hour flight.
   */
  function CheckTransportFeasibility(startLocation: string, destination: string, mode: string): (r: TransportInfo)
    ensures !r.feasible <==> (mode == "train" || mode == "bus") && InternationalRoute(startLocation, destination)
    ensures !r.feasible ==>
      && r.alternatives == Some(["Flight"]) && r.estimatedCost == 0 && r.duration == ""
      && r.message == Some(UnavailableMessage)
    ensures r.feasible ==> r.alternatives.None? && r.message.None?
  {
    var isInternational := InternationalRoute(startLocation, destination);
    if mode == "flight" then
      Available("Flight", if isInternational then 600 else 250, if isInternational then "8-12 hours" else "2-4 hours")
    else if mode == "train" && isInternational then Unavailable("Train")
    else if mode == "train" then Available("Train", 150, "4-8 hours")
    else if mode == "bus" && isInternational then Unavailable("Bus")
    else if mode == "bus" then Available("Bus", 80, "6-12 hours")
    else Available("Flight", 500, "8 hours")
  }

  /** The cost and duration each feasible mode is quoted at. */
  lemma FeasibleCosts(startLocation: string, destination: string, mode: string)
    ensures var r := CheckTransportFeasibility(startLocation, destination, mode);
      var intl := InternationalRoute(startLocation, destination);
      && (mode == "flight" ==>
            && r.mode == "Flight" && r.feasible
            && r.estimatedCost == (if intl then 600 else 250)
            && r.duration == (if intl then "8-12 hours" else "2-4 hours"))
      && (mode == "train" && !intl ==> r.mode == "Train" && r.estimatedCost == 150 && r.duration == "4-8 hours")
      && (mode == "bus" && !intl ==> r.mode == "Bus" && r.estimatedCost == 80 && r.duration == "6-12 hours")
      && (mode !in {"flight", "train", "bus"} ==>
            && r.mode == "Flight" && r.feasible && r.estimatedCost == 500 && r.duration == "8 hours")
      && r.estimatedCost >= 0
  {
  }

  lemma NewYorkAlphabet(h: string) returns (A: set<char>)
    requires h == "new york"
    ensures A == {'n', 'e', 'w', ' ', 'y', 'o', 'r', 'k'}
    ensures forall i :: 0 <= i < |h| ==> h[i] in A
  {
    A := {'n', 'e', 'w', ' ', 'y', 'o', 'r', 'k'};
  }

  lemma TokyoAlphabet(h: string) returns (A: set<char>)
    requires h == "tokyo"
    ensures A == {'t', 'o', 'k', 'y'}
    ensures forall i :: 0 <= i < |h| ==> h[i] in A
  {
    A := {'t', 'o', 'k', 'y'};
  }

  lemma NewYorkNotJapanFrance(h: string)
    requires h == "new york"
    ensures !CountryMatches(Countries, h, 1) && !CountryMatches(Countries, h, 2)
  {
    var A := NewYorkAlphabet(h);
    NoNeedleContained(h, A, Countries[1].1, "tstj");
    NoNeedleContained(h, A, Countries[2].1, "plmf");
  }

  lemma NewYorkNotUk(h: string)
    requires h == "new york"
    ensures !CountryMatches(Countries, h, 3)
  {
    var A := NewYorkAlphabet(h);
    NoNeedleContained(h, A, Countries[3].1, "lmduu");
  }

  lemma NewYorkNotIndiaUae(h: string)
    requires h == "new york"
    ensures !CountryMatches(Countries, h, 4) && !CountryMatches(Countries, h, 5)
  {
    var A := NewYorkAlphabet(h);
    NoNeedleContained(h, A, Countries[4].1, "dmbcli");
    NoNeedleContained(h, A, Countries[5].1, "dau");
  }

  lemma NewYorkNotThailandAustralia(h: string)
    requires h == "new york"
    ensures !CountryMatches(Countries, h, 6) && !CountryMatches(Countries, h, 7)
  {
    var A := NewYorkAlphabet(h);
    NoNeedleContained(h, A, Countries[6].1, "bpt");
    NoNeedleContained(h, A, Countries[7].1, "sma");
  }

  lemma NewYorkIsUsa(h: string)
    requires h == "new york"
    ensures CountryOf(Countries, h) == "usa"
  {
    assert IsPrefix(Countries[0].1[0], h);
    assert CountryMatches(Countries, h, 0);
    NewYorkNotJapanFrance(h);
    NewYorkNotUk(h);
    NewYorkNotIndiaUae(h);
    NewYorkNotThailandAustralia(h);
    assert IsLastCountryMatch(Countries, h, 0);
    CountryOfIsLastMatch(Countries, h);
  }

  lemma TokyoNotFranceUk(h: string)
    requires h == "tokyo"
    ensures !CountryMatches(Countries, h, 2) && !CountryMatches(Countries, h, 3)
  {
    var A := TokyoAlphabet(h);
    NoNeedleContained(h, A, Countries[2].1, "plmf");
    NoNeedleContained(h, A, Countries[3].1, "lmeuu");
  }

  lemma TokyoNotIndia(h: string)
    requires h == "tokyo"
    ensures !CountryMatches(Countries, h, 4)
  {
    var A := TokyoAlphabet(h);
    NoNeedleContained(h, A, Countries[4].1, "dmbcli");
  }

  lemma TokyoNotUae(h: string)
    requires h == "tokyo"
    ensures !CountryMatches(Countries, h, 5)
  {
    var A := TokyoAlphabet(h);
    NoNeedleContained(h, A, Countries[5].1, "dau");
  }

  lemma TokyoNotThailandAustralia(h: string)
    requires h == "tokyo"
    ensures !CountryMatches(Countries, h, 6) && !CountryMatches(Countries, h, 7)
  {
    var A := TokyoAlphabet(h);
    NoNeedleContained(h, A, Countries[6].1, "bph");
    NoNeedleContained(h, A, Countries[7].1, "sma");
  }

  lemma TokyoIsJapan(h: string)
    requires h == "tokyo"
    ensures CountryOf(Countries, h) == "japan"
  {
    assert IsPrefix(Countries[1].1[0], h);
    assert CountryMatches(Countries, h, 1);
    TokyoNotFranceUk(h);
    TokyoNotIndia(h);
    TokyoNotUae(h);
    TokyoNotThailandAustralia(h);
    assert IsLastCountryMatch(Countries, h, 1);
    CountryOfIsLastMatch(Countries, h);
  }

  /** A train from New York to Tokyo is refused and a flight is suggested instead. */
  lemma NewYorkTokyoTrainExample()
    ensures InternationalRoute("New York", "Tokyo")
    ensures CheckTransportFeasibility("New York", "Tokyo", "train") == Unavailable("Train")
  {
    NewYorkIsUsa(Lower("New York"));
    TokyoIsJapan(Lower("Tokyo"));
  }
}
