/** The mock travel services: flight, hotel and activity search over the static tables, the
    city-to-airport lookup, the day-by-day itinerary text, and the parser that turns a chat
    message into search criteria. The searches run synchronously here; the artificial
    delays of the source do not change what they return. */
module TravelService {
  import opened Wrappers
  import opened JsText
  import opened Seqs
  import opened Sorting
  import opened MockData

  /** The fields a search looks at. Dates are not part of this model. */
  datatype SearchCriteria = SearchCriteria(
    destination: Option<string>,
    origin: Option<string>,
    budget: Option<nat>,
    travelers: Option<nat>,
    preferences: Option<seq<string>>)

  /** A text criterion takes part only when it is present and non-empty: `if (destination)`. */
  predicate Given(s: Option<string>) {
    s.Some? && s.value != ""
  }

  /** A budget takes part only when it is present and non-zero: `if (budget)`. */
  predicate BudgetGiven(b: Option<nat>) {
    b.Some? && b.value != 0
  }

  // ---------------------------------------------------------------------------
  // getAirportCode

  const AirportCodes: map<string, string> := map[
    "new york" := "JFK", "nyc" := "JFK", "jfk" := "JFK",
    "paris" := "CDG", "france" := "CDG", "cdg" := "CDG",
    "rome" := "FCO", "italy" := "FCO", "fco" := "FCO",
    "tokyo" := "NRT", "japan" := "NRT", "nrt" := "NRT",
    "los angeles" := "LAX", "la" := "LAX", "lax" := "LAX"]

  /** `getAirportCode`: the code of a known city or code, ignoring case; JFK for anything
      else. */
  function GetAirportCode(location: string): (code: string)
    ensures code == "JFK" || code == "CDG" || code == "FCO" || code == "NRT" || code == "LAX"
    ensures ToLower(location) !in AirportCodes ==> code == "JFK"
    ensures ToLower(location) in AirportCodes ==> code == AirportCodes[ToLower(location)]
  {
    var normalized := ToLower(location);
    if normalized in AirportCodes then AirportCodes[normalized] else "JFK"
  }

  // ---------------------------------------------------------------------------
  // searchFlights

  function FlightDestinationOk(c: SearchCriteria): Flight -> bool {
    (f: Flight) => !Given(c.destination) || f.destination == GetAirportCode(c.destination.value)
  }

  function FlightOriginOk(c: SearchCriteria): Flight -> bool {
    (f: Flight) => !Given(c.origin) || f.origin == GetAirportCode(c.origin.value)
  }

  function FlightRouteOk(c: SearchCriteria): Flight -> bool {
    f => FlightDestinationOk(c)(f) && FlightOriginOk(c)(f)
  }

  function FlightBudgetOk(c: SearchCriteria): Flight -> bool {
    (f: Flight) => !BudgetGiven(c.budget) || f.price <= c.budget.value
  }

  /** A flight meets every criterion that is given: it lands at the destination's airport,
      leaves from the origin's airport, and costs no more than the budget. */
  predicate FlightMatches(c: SearchCriteria, f: Flight) {
    FlightRouteOk(c)(f) && FlightBudgetOk(c)(f)
  }

  function FlightMatchesFn(c: SearchCriteria): Flight -> bool {
    f => FlightMatches(c, f)
  }

  /** The matching flights of `flights` in table order. */
  function MatchingFlights(flights: seq<Flight>, c: SearchCriteria): seq<Flight> {
    Filter(flights, FlightMatchesFn(c))
  }

  /** The flight comparator `a.price - b.price`: `a` may come first when it is not dearer. */
  predicate CheaperOrEqual(a: Flight, b: Flight) {
    a.price <= b.price
  }

  datatype FlightSearchResult = FlightSearchResult(flights: seq<Flight>, totalResults: nat, searchCriteria: SearchCriteria)

  /** The three filters of `searchFlights`, applied one after another as the source does:
      together they keep exactly the matching flights, in table order. */
  method FilterFlights(flights: seq<Flight>, criteria: SearchCriteria) returns (filteredFlights: seq<Flight>)
    ensures filteredFlights == MatchingFlights(flights, criteria)
  {
    filteredFlights := flights;

    if Given(criteria.destination) {
      var destCode := GetAirportCode(criteria.destination.value);
      var landsAtDest := (f: Flight) => f.destination == destCode;
      filteredFlights := Filter(filteredFlights, landsAtDest);
      FilterExt(flights, landsAtDest, FlightDestinationOk(criteria));
    } else {
      FilterAll(flights, FlightDestinationOk(criteria));
    }
    assert filteredFlights == Filter(flights, FlightDestinationOk(criteria));

    if Given(criteria.origin) {
      var originCode := GetAirportCode(criteria.origin.value);
      var leavesOrigin := (f: Flight) => f.origin == originCode;
      FilterExt(filteredFlights, leavesOrigin, FlightOriginOk(criteria));
      filteredFlights := Filter(filteredFlights, leavesOrigin);
    } else {
      FilterAll(filteredFlights, FlightOriginOk(criteria));
    }
    FilterTwice(flights, FlightDestinationOk(criteria), FlightOriginOk(criteria), FlightRouteOk(criteria));
    assert filteredFlights == Filter(flights, FlightRouteOk(criteria));

    if BudgetGiven(criteria.budget) {
      var budget := criteria.budget.value;
      var affordable := (f: Flight) => f.price <= budget;
      FilterExt(filteredFlights, affordable, FlightBudgetOk(criteria));
      filteredFlights := Filter(filteredFlights, affordable);
    } else {
      FilterAll(filteredFlights, FlightBudgetOk(criteria));
    }
    FilterTwice(flights, FlightRouteOk(criteria), FlightBudgetOk(criteria), FlightMatchesFn(criteria));
  }

  /** The body of `searchFlights` over a flight table: the matching flights, cheapest first,
      flights of equal price in table order. */
  method SearchFlightsIn(flights: seq<Flight>, criteria: SearchCriteria) returns (result: FlightSearchResult)
    ensures forall f :: f in result.flights <==> f in flights && FlightMatches(criteria, f)
    ensures multiset(result.flights) == multiset(MatchingFlights(flights, criteria))
    ensures SortedBy(result.flights, CheaperOrEqual)
    ensures forall e :: e in result.flights ==>
              Filter(result.flights, EquivalentTo(CheaperOrEqual, e))
              == Filter(MatchingFlights(flights, criteria), EquivalentTo(CheaperOrEqual, e))
    ensures result.totalResults == |result.flights|
    ensures result.searchCriteria == criteria
  {
    var filteredFlights := FilterFlights(flights, criteria);
    ghost var selected := filteredFlights;
    filteredFlights := SortBy(filteredFlights, CheaperOrEqual);
    SortByProperties(selected, CheaperOrEqual, set f | f in selected);
    FilterIn(flights, FlightMatchesFn(criteria));
    result := FlightSearchResult(filteredFlights, |filteredFlights|, criteria);
  }

  /** `searchFlights`: the search over the mock flight table. */
  method SearchFlights(criteria: SearchCriteria) returns (result: FlightSearchResult)
    ensures forall f :: f in result.flights <==> f in MockFlights && FlightMatches(criteria, f)
    ensures multiset(result.flights) == multiset(MatchingFlights(MockFlights, criteria))
    ensures SortedBy(result.flights, CheaperOrEqual)
    ensures forall e :: e in result.flights ==>
              Filter(result.flights, EquivalentTo(CheaperOrEqual, e))
              == Filter(MatchingFlights(MockFlights, criteria), EquivalentTo(CheaperOrEqual, e))
    ensures result.totalResults == |result.flights|
    ensures result.searchCriteria == criteria
  {
    result := SearchFlightsIn(MockFlights, criteria);
  }

  // ---------------------------------------------------------------------------
  // searchHotels

  function HotelDestinationOk(c: SearchCriteria): Hotel -> bool {
    (h: Hotel) => !Given(c.destination) || HotelIn(ToLower(c.destination.value), h)
  }

  /** `pricePerNight <= budget / 5`: the budget pays for five nights. */
  function HotelBudgetOk(c: SearchCriteria): Hotel -> bool {
    (h: Hotel) => !BudgetGiven(c.budget) || 5 * h.pricePerNight <= c.budget.value
  }

  /** A hotel lies at the destination (its lower-cased location or its id contains the
      lower-cased destination) and five nights fit in the budget, for each criterion
      given. The traveller count is not consulted. */
  predicate HotelMatches(c: SearchCriteria, h: Hotel) {
    HotelDestinationOk(c)(h) && HotelBudgetOk(c)(h)
  }

  function HotelMatchesFn(c: SearchCriteria): Hotel -> bool {
    h => HotelMatches(c, h)
  }

  function MatchingHotels(hotels: seq<Hotel>, c: SearchCriteria): seq<Hotel> {
    Filter(hotels, HotelMatchesFn(c))
  }

  /** The hotel comparator `bValue - aValue` with value `rating / (pricePerNight / 100)`:
      `a` may come first when its rating per dollar is at least that of `b`, compared by
      cross-multiplying, which is exact for positive prices. */
  predicate BetterValueOrEqual(a: Hotel, b: Hotel) {
    b.rating * a.pricePerNight <= a.rating * b.pricePerNight
  }

  predicate PositivePrices(hotels: seq<Hotel>) {
    forall h :: h in hotels ==> h.pricePerNight > 0
  }

  /** Cross-multiplied ratios are transitive when the prices are positive. */
  lemma ValueTransitive(a: Hotel, b: Hotel, c: Hotel)
    requires a.pricePerNight > 0 && b.pricePerNight > 0 && c.pricePerNight > 0
    requires BetterValueOrEqual(a, b) && BetterValueOrEqual(b, c)
    ensures BetterValueOrEqual(a, c)
  {
    var pa, pb, pc := a.pricePerNight, b.pricePerNight, c.pricePerNight;
    var ra, rb, rc := a.rating, b.rating, c.rating;
    calc {
      rc * pa * pb;
    == (rc * pb) * pa;
    <= { MulLeMono(rc * pb, rb * pc, pa); }
      (rb * pc) * pa;
    == (rb * pa) * pc;
    <= { MulLeMono(rb * pa, ra * pb, pc); }
      (ra * pb) * pc;
    == (ra * pc) * pb;
    }
    MulLeCancel(rc * pa, ra * pc, pb);
  }

  lemma MulLeMono(x: nat, y: nat, k: nat)
    requires x <= y
    ensures x * k <= y * k
  {
  }

  lemma MulLeCancel(x: nat, y: nat, k: nat)
    requires k > 0 && x * k <= y * k
    ensures x <= y
  {
    if x > y {
      MulLtMono(y, x, k);
    }
  }

  lemma MulLtMono(x: nat, y: nat, k: nat)
    requires x < y && k > 0
    ensures x * k < y * k
  {
  }

  /** On hotels with positive prices the value comparator is a total preorder. */
  lemma ValueOrderTotal(u: set<Hotel>)
    requires forall h :: h in u ==> h.pricePerNight > 0
    ensures TotalPreorderOn(u, BetterValueOrEqual)
  {
    forall a, b, c | a in u && b in u && c in u && BetterValueOrEqual(a, b) && BetterValueOrEqual(b, c)
      ensures BetterValueOrEqual(a, c)
    {
      ValueTransitive(a, b, c);
    }
  }

  datatype HotelSearchResult = HotelSearchResult(hotels: seq<Hotel>, totalResults: nat, searchCriteria: SearchCriteria)

  /** The two filters of `searchHotels`, one after the other. */
  method FilterHotels(hotels: seq<Hotel>, criteria: SearchCriteria) returns (filteredHotels: seq<Hotel>)
    ensures filteredHotels == MatchingHotels(hotels, criteria)
  {
    filteredHotels := hotels;

    if Given(criteria.destination) {
      var normalizedDest := ToLower(criteria.destination.value);
      var atDest := (h: Hotel) => Contains(ToLower(h.location), normalizedDest) || Contains(h.id, normalizedDest);
      filteredHotels := Filter(filteredHotels, atDest);
      FilterExt(hotels, atDest, HotelDestinationOk(criteria));
    } else {
      FilterAll(hotels, HotelDestinationOk(criteria));
    }
    assert filteredHotels == Filter(hotels, HotelDestinationOk(criteria));

    if BudgetGiven(criteria.budget) {
      var budget := criteria.budget.value;
      var affordable := (h: Hotel) => 5 * h.pricePerNight <= budget;
      FilterExt(filteredHotels, affordable, HotelBudgetOk(criteria));
      filteredHotels := Filter(filteredHotels, affordable);
    } else {
      FilterAll(filteredHotels, HotelBudgetOk(criteria));
    }
    FilterTwice(hotels, HotelDestinationOk(criteria), HotelBudgetOk(criteria), HotelMatchesFn(criteria));
  }

  /** The body of `searchHotels` over a hotel table whose prices are positive: the matching
      hotels, best rating per dollar first, hotels of equal value in table order. */
  method SearchHotelsIn(hotels: seq<Hotel>, criteria: SearchCriteria) returns (result: HotelSearchResult)
    requires PositivePrices(hotels)
    ensures forall h :: h in result.hotels <==> h in hotels && HotelMatches(criteria, h)
    ensures multiset(result.hotels) == multiset(MatchingHotels(hotels, criteria))
    ensures SortedBy(result.hotels, BetterValueOrEqual)
    ensures forall e :: e in result.hotels ==>
              Filter(result.hotels, EquivalentTo(BetterValueOrEqual, e))
              == Filter(MatchingHotels(hotels, criteria), EquivalentTo(BetterValueOrEqual, e))
    ensures result.totalResults == |result.hotels|
    ensures result.searchCriteria == criteria
  {
    var filteredHotels := FilterHotels(hotels, criteria);
    ghost var selected := filteredHotels;
    FilterIn(hotels, HotelMatchesFn(criteria));
    ValueOrderTotal(set h | h in selected);
    filteredHotels := SortBy(filteredHotels, BetterValueOrEqual);
    SortByProperties(selected, BetterValueOrEqual, set h | h in selected);
    result := HotelSearchResult(filteredHotels, |filteredHotels|, criteria);
  }

  /** Every mock hotel has a positive nightly price. */
  lemma MockHotelPricesPositive()
    ensures PositivePrices(MockHotels)
  {
    forall k | 0 <= k < |MockHotels| ensures MockHotels[k].pricePerNight > 0 {
    }
  }

  /** `searchHotels`: the search over the mock hotel table. */
  method SearchHotels(criteria: SearchCriteria) returns (result: HotelSearchResult)
    ensures forall h :: h in result.hotels <==> h in MockHotels && HotelMatches(criteria, h)
    ensures multiset(result.hotels) == multiset(MatchingHotels(MockHotels, criteria))
    ensures SortedBy(result.hotels, BetterValueOrEqual)
    ensures forall e :: e in result.hotels ==>
              Filter(result.hotels, EquivalentTo(BetterValueOrEqual, e))
              == Filter(MatchingHotels(MockHotels, criteria), EquivalentTo(BetterValueOrEqual, e))
    ensures result.totalResults == |result.hotels|
    ensures result.searchCriteria == criteria
  {
    MockHotelPricesPositive();
    result := SearchHotelsIn(MockHotels, criteria);
  }

  // ---------------------------------------------------------------------------
  // searchActivities

  function ActivityDestinationOk(c: SearchCriteria): Activity -> bool {
    (a: Activity) => !Given(c.destination) || ActivityIn(ToLower(c.destination.value), a)
  }

  /** A tag and a preference match when either, lower-cased, contains the other. */
  predicate TagMatches(tag: string, pref: string) {
    Contains(ToLower(tag), ToLower(pref)) || Contains(ToLower(pref), ToLower(tag))
  }

  /** An activity suits one preference through a tag, its type or its name. */
  predicate SuitsPreference(a: Activity, pref: string) {
    || (exists i :: 0 <= i < |a.tags| && TagMatches(a.tags[i], pref))
    || Contains(ToLower(a.activityType.Name()), ToLower(pref))
    || Contains(ToLower(a.name), ToLower(pref))
  }

  /** The preferences of the criteria, the empty list when absent. */
  function Preferences(c: SearchCriteria): seq<string> {
    if c.preferences.Some? then c.preferences.value else []
  }

  function ActivityPreferenceOk(c: SearchCriteria): Activity -> bool {
    (a: Activity) => |Preferences(c)| == 0 || exists j :: 0 <= j < |Preferences(c)| && SuitsPreference(a, Preferences(c)[j])
  }

  /** `price <= budget * 0.3 / 3`: a tenth of the budget per activity. */
  function ActivityBudgetOk(c: SearchCriteria): Activity -> bool {
    (a: Activity) => !BudgetGiven(c.budget) || 10 * a.price <= c.budget.value
  }

  function ActivityPlaceOk(c: SearchCriteria): Activity -> bool {
    (a: Activity) => ActivityDestinationOk(c)(a) && ActivityPreferenceOk(c)(a)
  }

  /** An activity lies at the destination, suits at least one preference when any are
      given, and costs at most a tenth of the budget, for each criterion given. */
  predicate ActivityMatches(c: SearchCriteria, a: Activity) {
    ActivityPlaceOk(c)(a) && ActivityBudgetOk(c)(a)
  }

  function ActivityMatchesFn(c: SearchCriteria): Activity -> bool {
    a => ActivityMatches(c, a)
  }

  function MatchingActivities(activities: seq<Activity>, c: SearchCriteria): seq<Activity> {
    Filter(activities, ActivityMatchesFn(c))
  }

  /** The activity comparator `b.rating - a.rating`: `a` may come first when it is rated at
      least as high. */
  predicate RatedAtLeast(a: Activity, b: Activity) {
    b.rating <= a.rating
  }

  datatype ActivitySearchResult = ActivitySearchResult(activities: seq<Activity>, totalResults: nat, searchCriteria: SearchCriteria)

  /** The three filters of `searchActivities`, one after the other. */
  method FilterActivities(activities: seq<Activity>, criteria: SearchCriteria) returns (filteredActivities: seq<Activity>)
    ensures filteredActivities == MatchingActivities(activities, criteria)
  {
    filteredActivities := activities;

    if Given(criteria.destination) {
      var normalizedDest := ToLower(criteria.destination.value);
      var atDest := (a: Activity) => Contains(ToLower(a.location), normalizedDest) || Contains(a.id, normalizedDest);
      filteredActivities := Filter(filteredActivities, atDest);
      FilterExt(activities, atDest, ActivityDestinationOk(criteria));
    } else {
      FilterAll(activities, ActivityDestinationOk(criteria));
    }
    assert filteredActivities == Filter(activities, ActivityDestinationOk(criteria));

    var preferences := Preferences(criteria);
    if |preferences| > 0 {
      var suitsSome := (a: Activity) => exists j :: 0 <= j < |preferences| && SuitsPreference(a, preferences[j]);
      FilterExt(filteredActivities, suitsSome, ActivityPreferenceOk(criteria));
      filteredActivities := Filter(filteredActivities, suitsSome);
    } else {
      FilterAll(filteredActivities, ActivityPreferenceOk(criteria));
    }
    FilterTwice(activities, ActivityDestinationOk(criteria), ActivityPreferenceOk(criteria), ActivityPlaceOk(criteria));
    assert filteredActivities == Filter(activities, ActivityPlaceOk(criteria));

    if BudgetGiven(criteria.budget) {
      var budget := criteria.budget.value;
      var affordable := (a: Activity) => 10 * a.price <= budget;
      FilterExt(filteredActivities, affordable, ActivityBudgetOk(criteria));
      filteredActivities := Filter(filteredActivities, affordable);
    } else {
      FilterAll(filteredActivities, ActivityBudgetOk(criteria));
    }
    FilterTwice(activities, ActivityPlaceOk(criteria), ActivityBudgetOk(criteria), ActivityMatchesFn(criteria));
  }

  /** The body of `searchActivities` over an activity table: the matching activities,
      highest rated first, activities of equal rating in table order. */
  method SearchActivitiesIn(activities: seq<Activity>, criteria: SearchCriteria) returns (result: ActivitySearchResult)
    ensures forall a :: a in result.activities <==> a in activities && ActivityMatches(criteria, a)
    ensures multiset(result.activities) == multiset(MatchingActivities(activities, criteria))
    ensures SortedBy(result.activities, RatedAtLeast)
    ensures forall e :: e in result.activities ==>
              Filter(result.activities, EquivalentTo(RatedAtLeast, e))
              == Filter(MatchingActivities(activities, criteria), EquivalentTo(RatedAtLeast, e))
    ensures result.totalResults == |result.activities|
    ensures result.searchCriteria == criteria
  {
    var filteredActivities := FilterActivities(activities, criteria);
    ghost var selected := filteredActivities;
    filteredActivities := SortBy(filteredActivities, RatedAtLeast);
    SortByProperties(selected, RatedAtLeast, set a | a in selected);
    FilterIn(activities, ActivityMatchesFn(criteria));
    result := ActivitySearchResult(filteredActivities, |filteredActivities|, criteria);
  }

  /** `searchActivities`: the search over the mock activity table. */
  method SearchActivities(criteria: SearchCriteria) returns (result: ActivitySearchResult)
    ensures forall a :: a in result.activities <==> a in MockActivities && ActivityMatches(criteria, a)
    ensures multiset(result.activities) == multiset(MatchingActivities(MockActivities, criteria))
    ensures SortedBy(result.activities, RatedAtLeast)
    ensures forall e :: e in result.activities ==>
              Filter(result.activities, EquivalentTo(RatedAtLeast, e))
              == Filter(MatchingActivities(MockActivities, criteria), EquivalentTo(RatedAtLeast, e))
    ensures result.totalResults == |result.activities|
    ensures result.searchCriteria == criteria
  {
    result := SearchActivitiesIn(MockActivities, criteria);
  }

  /** Every mock flight lands at CDG, FCO or NRT. */
  lemma MockFlightDestinations()
    ensures forall k :: 0 <= k < |MockFlights| ==> MockFlights[k].destination in {"CDG", "FCO", "NRT"}
  {
  }

  /** A destination whose airport no flight of the table lands at finds no flights. */
  lemma NoFlightsToUnservedAirport(flights: seq<Flight>, c: SearchCriteria)
    requires Given(c.destination)
    requires forall k :: 0 <= k < |flights| ==> flights[k].destination != GetAirportCode(c.destination.value)
    ensures MatchingFlights(flights, c) == []
  {
    forall f | f in flights ensures !FlightMatchesFn(c)(f) {
      var k :| 0 <= k < |flights| && flights[k] == f;
      assert !FlightDestinationOk(c)(f);
    }
    FilterNone(flights, FlightMatchesFn(c));
  }

  /** An unknown destination falls back to JFK, where no mock flight lands. */
  lemma UnknownDestinationFindsNoFlights(c: SearchCriteria)
    requires Given(c.destination)
    requires ToLower(c.destination.value) !in AirportCodes
    ensures MatchingFlights(MockFlights, c) == []
  {
    MockFlightDestinations();
    NoFlightsToUnservedAirport(MockFlights, c);
  }

  // ---------------------------------------------------------------------------
  // generateItinerary

  /** The symbols the itinerary text prints, as the source spells them. */
  const HotelSymbol := "\U{F8FF}\U{FC}\U{E8}\U{AE}"
  const PinSymbol := "\U{F8FF}\U{FC}\U{EC}\U{E7}"
  const StarSymbol := "\U{201A}\U{2260}\U{EA}"
  const Bullet := "\U{201A}\U{C4}\U{A2}"
  const ClockSymbol := "\U{201A}\U{E8}\U{221E}"
  const MorningSlot := "\U{F8FF}\U{FC}\U{E5}\U{D6} Morning"
  const EveningSlot := "\U{F8FF}\U{FC}\U{E5}\U{DC} Evening"

  /** An activity rating in tenths as JavaScript prints the number: `4.7`, or `5` for a
      whole number of stars. */
  function RatingText(tenths: nat): string {
    NatToString(tenths / 10) + (if tenths % 10 == 0 then "" else "." + [DigitChar(tenths % 10)])
  }

  function Header(destination: string, days: nat): string {
    "## " + NatToString(days) + "-Day " + destination + " Itinerary\n\n"
  }

  function HotelBlock(h: Hotel): string {
    "**" + HotelSymbol + " Recommended Hotel:** " + h.name + "\n"
    + PinSymbol + " " + h.location + "\n"
    + StarSymbol + " " + NatToString(h.rating) + "/5 stars " + Bullet + " $" + NatToString(h.pricePerNight) + "/night\n"
    + h.description + "\n\n"
  }

  /** The first activity of a day is in the morning, any later one in the evening. */
  function TimeSlot(index: nat): string {
    if index == 0 then MorningSlot else EveningSlot
  }

  function ActivityBlock(a: Activity, index: nat): string {
    "**" + TimeSlot(index) + ": " + a.name + "**\n"
    + PinSymbol + " " + a.location + " " + Bullet + " " + a.duration + " " + Bullet + " $" + NatToString(a.price) + "\n"
    + StarSymbol + " " + RatingText(a.rating) + "/5 " + Bullet + " " + a.description + "\n"
    + ClockSymbol + " " + a.operatingHours + "\n\n"
  }

  /** The blocks of a day's activities, each with its position in the day. */
  function ActivityBlocks(dayActivities: seq<Activity>): string {
    if dayActivities == [] then ""
    else
      var n := |dayActivities| - 1;
      ActivityBlocks(dayActivities[..n]) + ActivityBlock(dayActivities[n], n)
  }

  function FreeDayLine(destination: string): string {
    "**Free Day**: Explore " + destination + " at your own pace\n\n"
  }

  function Min(a: nat, b: nat): nat {
    if a <= b then a else b
  }

  /** `activities.slice(0, Math.min(days * 2, activities.length))`. */
  function TopActivities(activities: seq<Activity>, days: nat): (top: seq<Activity>)
    ensures |top| == Min(2 * days, |activities|)
    ensures top == activities[..|top|]
  {
    activities[..Min(2 * days, |activities|)]
  }

  /** `topActivities.slice((day - 1) * 2, day * 2)`: slice bounds past the end are clamped. */
  function DayActivities(top: seq<Activity>, day: nat): (r: seq<Activity>)
    requires day >= 1
    ensures |r| <= 2
    ensures r == [] <==> |top| <= 2 * (day - 1)
  {
    top[Min(2 * (day - 1), |top|)..Min(2 * day, |top|)]
  }

  function DayHeading(day: nat): string {
    "### Day " + NatToString(day) + "\n"
  }

  function DayText(top: seq<Activity>, destination: string, day: nat): string
    requires day >= 1
  {
    var dayActivities := DayActivities(top, day);
    DayHeading(day)
    + (if |dayActivities| > 0 then ActivityBlocks(dayActivities) else FreeDayLine(destination))
  }

  /** The text of days `1..n`. */
  function DaysText(top: seq<Activity>, destination: string, n: nat): string {
    if n == 0 then "" else DaysText(top, destination, n - 1) + DayText(top, destination, n)
  }

  /** The block of the first hotel, when there is one. */
  function HotelText(hotels: seq<Hotel>): string {
    if |hotels| > 0 then HotelBlock(hotels[0]) else ""
  }

  /** The whole itinerary: the header, the first hotel when there is one, and one section
      per day. */
  function Itinerary(destination: string, days: nat, hotels: seq<Hotel>, activities: seq<Activity>): string {
    Header(destination, days) + HotelText(hotels) + DaysText(TopActivities(activities, days), destination, days)
  }

  lemma AppendAssoc(a: string, b: string, c: string)
    ensures a + b + c == a + (b + c)
  {
  }

  lemma ActivityBlocksSnoc(dayActivities: seq<Activity>, index: nat)
    requires index < |dayActivities|
    ensures ActivityBlocks(dayActivities[..index + 1])
            == ActivityBlocks(dayActivities[..index]) + ActivityBlock(dayActivities[index], index)
  {
    assert dayActivities[..index + 1][..index] == dayActivities[..index];
  }

  /** `if (selectedHotel) { ... }`: the block of `hotels[0]` when the list is not empty. */
  method AppendHotel(text: string, hotels: seq<Hotel>) returns (itinerary: string)
    ensures itinerary == text + HotelText(hotels)
  {
    itinerary := text;
    if |hotels| > 0 {
      itinerary := itinerary + HotelBlock(hotels[0]);
    }
  }

  /** `dayActivities.forEach((activity, index) => ...)`: one block per activity, the first
      in the morning slot. */
  method AppendActivities(text: string, dayActivities: seq<Activity>) returns (itinerary: string)
    ensures itinerary == text + ActivityBlocks(dayActivities)
  {
    itinerary := text;
    for index := 0 to |dayActivities|
      invariant itinerary == text + ActivityBlocks(dayActivities[..index])
    {
      itinerary := itinerary + ActivityBlock(dayActivities[index], index);
      ActivityBlocksSnoc(dayActivities, index);
      AppendAssoc(text, ActivityBlocks(dayActivities[..index]), ActivityBlock(dayActivities[index], index));
    }
    assert dayActivities[..|dayActivities|] == dayActivities;
  }

  /** One pass of the day loop: the heading, then the day's activities or the free-day
      line. */
  method AppendDay(text: string, topActivities: seq<Activity>, destination: string, day: nat) returns (itinerary: string)
    requires day >= 1
    ensures itinerary == text + DayText(topActivities, destination, day)
  {
    itinerary := text + DayHeading(day);
    var dayActivities := DayActivities(topActivities, day);
    if |dayActivities| > 0 {
      itinerary := AppendActivities(itinerary, dayActivities);
      AppendAssoc(text, DayHeading(day), ActivityBlocks(dayActivities));
    } else {
      itinerary := itinerary + FreeDayLine(destination);
      AppendAssoc(text, DayHeading(day), FreeDayLine(destination));
    }
  }

  /** `generateItinerary`: the header, the hotel, then the days `1..days` in turn. */
  method GenerateItinerary(destination: string, days: nat, hotels: seq<Hotel>, activities: seq<Activity>)
    returns (itinerary: string)
    ensures itinerary == Itinerary(destination, days, hotels, activities)
  {
    var topActivities := TopActivities(activities, days);
    itinerary := AppendHotel(Header(destination, days), hotels);
    ghost var opening := itinerary;

    for completed := 0 to days
      invariant itinerary == opening + DaysText(topActivities, destination, completed)
    {
      var day := completed + 1;
      itinerary := AppendDay(itinerary, topActivities, destination, day);
      AppendAssoc(opening, DaysText(topActivities, destination, completed), DayText(topActivities, destination, day));
    }
  }

  /** The activities of days `1..n`, one day after another. */
  function ScheduledActivities(top: seq<Activity>, n: nat): seq<Activity> {
    if n == 0 then [] else ScheduledActivities(top, n - 1) + DayActivities(top, n)
  }

  /** Days `1..n` take the activities in order, two a day, until they run out. */
  lemma {:induction false} ScheduledPrefix(top: seq<Activity>, n: nat)
    ensures ScheduledActivities(top, n) == top[..Min(2 * n, |top|)]
  {
    if n > 0 {
      ScheduledPrefix(top, n - 1);
      var lo, hi := Min(2 * (n - 1), |top|), Min(2 * n, |top|);
      assert top[..lo] + top[lo..hi] == top[..hi];
    }
  }

  /** Every top activity is scheduled exactly once and in order: the day slices put
      together give back the top activities. */
  lemma ItineraryUsesTopActivities(activities: seq<Activity>, days: nat)
    ensures ScheduledActivities(TopActivities(activities, days), days) == TopActivities(activities, days)
    ensures ScheduledActivities(TopActivities(activities, days), days) == activities[..Min(2 * days, |activities|)]
  {
    var top := TopActivities(activities, days);
    ScheduledPrefix(top, days);
    assert top[..Min(2 * days, |top|)] == top;
  }

  /** A day of the itinerary is a free day exactly when the activities ran out on earlier
      days. */
  lemma FreeDays(activities: seq<Activity>, days: nat, day: nat)
    requires 1 <= day <= days
    ensures DayActivities(TopActivities(activities, days), day) == [] <==> |activities| <= 2 * (day - 1)
  {
  }

  // ---------------------------------------------------------------------------
  // parseTravelRequest

  const Destinations: seq<string> := ["paris", "rome", "tokyo", "japan", "italy", "france"]
  const PreferenceKeywords: seq<string> := ["food", "culture", "history", "art", "romantic", "family", "adventure", "luxury", "budget"]
  const TravelerWords: seq<string> := ["people", "person", "traveler", "guest"]

  /** `/\$(\d+(?:,\d+)?)/` can start at `p`: a dollar sign followed by a digit. */
  predicate BudgetStartsAt(s: string, p: nat) {
    p + 1 < |s| && s[p] == '$' && IsDigit(s[p + 1])
  }

  function BudgetStart(s: string): nat -> bool {
    (p: nat) => BudgetStartsAt(s, p)
  }

  /** The captured amount with its comma removed: the run of digits after the dollar sign,
      then, when a comma and another digit follow, the run of digits after the comma. */
  function BudgetDigits(s: string, p: nat): (ds: string)
    requires BudgetStartsAt(s, p)
    ensures |ds| >= 1 && AllDigits(ds)
  {
    var e := p + 1 + DigitSpan(s, p + 1);
    var whole := s[p + 1..e];
    if e + 1 < |s| && s[e] == ',' && IsDigit(s[e + 1]) then whole + s[e + 1..e + 1 + DigitSpan(s, e + 1)]
    else whole
  }

  /** The budget of a message: the amount of the leftmost match, read as a decimal
      number; none when no dollar sign is followed by a digit. */
  function BudgetAmount(message: string): (r: Option<nat>)
    ensures r.None? <==> forall p :: 0 <= p < |message| ==> !BudgetStartsAt(message, p)
  {
    var start := FirstIndex(BudgetStart(message), 0, |message|);
    if start.None? then
      assert forall p :: 0 <= p < |message| ==> !BudgetStartsAt(message, p) by {
        forall p | 0 <= p < |message| ensures !BudgetStartsAt(message, p) {
          assert !BudgetStart(message)(p);
        }
      }
      None
    else
      assert BudgetStart(message)(start.value);
      Some(DecimalValue(BudgetDigits(message, start.value)))
  }

  /** The leftmost match starts at the first place a dollar sign is followed by a digit. */
  lemma BudgetMatchAt(s: string, p0: nat)
    requires BudgetStartsAt(s, p0)
    requires forall p :: 0 <= p < p0 ==> !BudgetStartsAt(s, p)
    ensures BudgetAmount(s) == Some(DecimalValue(BudgetDigits(s, p0)))
  {
    FirstIndexIs(BudgetStart(s), 0, |s|, p0);
  }

  /** A whole dollar amount written without separators is read back exactly. */
  lemma BudgetRoundTrip(pre: string, n: nat, post: string)
    requires forall i :: 0 <= i < |pre| ==> pre[i] != '$'
    requires post == [] || (!IsDigit(post[0]) && post[0] != ',')
    ensures BudgetAmount(pre + "$" + NatToString(n) + post) == Some(n)
  {
    var ds := NatToString(n);
    var s := pre + "$" + ds + post;
    var p0 := |pre|;
    assert s[p0] == '$' && s[p0 + 1] == ds[0];
    forall p | 0 <= p < p0 ensures !BudgetStartsAt(s, p) {
      assert s[p] == pre[p];
    }
    var e := p0 + 1 + |ds|;
    forall k | p0 + 1 <= k < e ensures IsDigit(s[k]) {
      assert s[k] == ds[k - p0 - 1];
    }
    assert e < |s| ==> s[e] == post[0];
    DigitSpanOf(s, p0 + 1, |ds|);
    assert s[p0 + 1..e] == ds;
    BudgetMatchAt(s, p0);
  }

  /** The captured digits when a comma and a second run of digits follow the first run. */
  lemma BudgetDigitsWithSeparator(s: string, p0: nat, e: nat, f: nat)
    requires BudgetStartsAt(s, p0)
    requires p0 + 1 + DigitSpan(s, p0 + 1) == e
    requires e + 1 < |s| && s[e] == ',' && IsDigit(s[e + 1])
    requires e + 1 + DigitSpan(s, e + 1) == f
    ensures BudgetDigits(s, p0) == s[p0 + 1..e] + s[e + 1..f]
  {
  }

  /** One thousands separator is understood: when the first dollar-digit sits at `p0`, its
      digits run to `e`, a comma follows and a second run of digits spans `e + 1..f`, the
      budget is the two runs read as one number (`$2,500` is 2500). */
  lemma BudgetWithSeparator(s: string, p0: nat, e: nat, f: nat)
    requires BudgetStartsAt(s, p0)
    requires forall p :: 0 <= p < p0 ==> !BudgetStartsAt(s, p)
    requires p0 + 1 < e && e + 1 < f <= |s|
    requires AllDigits(s[p0 + 1..e]) && s[e] == ',' && AllDigits(s[e + 1..f])
    requires f == |s| || !IsDigit(s[f])
    ensures BudgetAmount(s) == Some(DecimalValue(s[p0 + 1..e] + s[e + 1..f]))
  {
    forall k | p0 + 1 <= k < e ensures IsDigit(s[k]) {
      assert s[k] == s[p0 + 1..e][k - p0 - 1];
    }
    forall k | e + 1 <= k < f ensures IsDigit(s[k]) {
      assert s[k] == s[e + 1..f][k - e - 1];
    }
    DigitSpanOf(s, p0 + 1, e - p0 - 1);
    DigitSpanOf(s, e + 1, f - e - 1);
    BudgetDigitsWithSeparator(s, p0, e, f);
    BudgetMatchAt(s, p0);
  }

  /** Only one separator is understood: after `$a,b,c` the match stops before the second
      comma, so the budget is the digits of `a` and `b` alone. */
  lemma BudgetStopsAtSecondComma(a: string, b: string, c: string)
    requires |a| >= 1 && AllDigits(a) && |b| >= 1 && AllDigits(b)
    ensures BudgetAmount("$" + a + "," + b + "," + c) == Some(DecimalValue(a + b))
  {
    SeparatorLayout(a, b, c);
    BudgetWithSeparator("$" + a + "," + b + "," + c, 0, 1 + |a|, 2 + |a| + |b|);
  }

  /** Where the parts of `$a,b,c` sit. */
  lemma SeparatorLayout(a: string, b: string, c: string)
    requires |a| >= 1
    ensures var s := "$" + a + "," + b + "," + c;
            && |s| == 3 + |a| + |b| + |c|
            && s[0] == '$' && s[1] == a[0] && s[1 + |a|] == ',' && s[2 + |a| + |b|] == ','
            && s[1..1 + |a|] == a && s[2 + |a|..2 + |a| + |b|] == b
  {
  }

  /** In `$1,000,000` the budget is 1000. */
  lemma BudgetStopsAtSecondSeparator()
    ensures BudgetAmount("$1,000,000") == Some(1000)
  {
    assert "$1,000,000" == "$" + "1" + "," + "000" + "," + "000";
    BudgetStopsAtSecondComma("1", "000", "000");
    assert "1" + "000" == "1000";
    ThousandValue();
  }

  lemma ThousandValue()
    ensures DecimalValue("1000") == 1000
  {
    assert "1000"[..3] == "100" && "100"[..2] == "10" && "10"[..1] == "1";
  }

  /** `/(\d+)\s+(?:people|person|traveler|guest)/i` matches at `p`: a run of digits, at
      least one whitespace character, then one of the words in any letter case. The digit
      and whitespace runs are maximal, since a shorter run would leave a digit or a space
      where the next part needs something else. */
  predicate TravelerMatchAt(s: string, words: seq<string>, p: nat) {
    p < |s| && IsDigit(s[p]) && SpacedWordAt(s, words, DigitsEnd(s, p))
  }

  /** At least one whitespace character at index `i` of `s`, then one of `words`. */
  predicate SpacedWordAt(s: string, words: seq<string>, i: nat)
    requires i <= |s|
  {
    var e := SpacesEnd(s, i);
    i < e && WordAt(ToLower(s), words, 0, e)
  }

  /** One of `words[k..]` starts at index `i` of `t`: the alternation `(?:w1|w2|...)`. */
  predicate WordAt(t: string, words: seq<string>, k: nat, i: nat)
    decreases |words| - k
  {
    k < |words| && (OccursAt(t, words[k], i) || WordAt(t, words, k + 1, i))
  }

  /** Any one of the alternatives found at `i` makes the alternation match there. */
  lemma {:induction false} WordAtIndex(t: string, words: seq<string>, j: nat, k: nat, i: nat)
    requires j <= k < |words| && OccursAt(t, words[k], i)
    ensures WordAt(t, words, j, i)
    decreases k - j
  {
    if j < k {
      WordAtIndex(t, words, j + 1, k, i);
    }
  }

  function TravelerStart(s: string, words: seq<string>): nat -> bool {
    (p: nat) => TravelerMatchAt(s, words, p)
  }

  /** The count that a message gives before one of `words`: the digits of the leftmost
      match of the pattern. */
  function CountBefore(message: string, words: seq<string>): (r: Option<nat>)
    ensures r.None? <==> forall p :: 0 <= p < |message| ==> !TravelerMatchAt(message, words, p)
  {
    var start := FirstIndex(TravelerStart(message, words), 0, |message|);
    if start.None? then
      assert forall p :: 0 <= p < |message| ==> !TravelerMatchAt(message, words, p) by {
        forall p | 0 <= p < |message| ensures !TravelerMatchAt(message, words, p) {
          assert !TravelerStart(message, words)(p);
        }
      }
      None
    else
      Some(NumberAt(message, start.value))
  }

  /** The number of travellers of a message. */
  function TravelerCount(message: string): Option<nat> {
    CountBefore(message, TravelerWords)
  }

  /** The count is read from the first place the pattern matches. */
  lemma CountBeforeAt(s: string, words: seq<string>, p0: nat)
    requires TravelerMatchAt(s, words, p0)
    requires forall p :: 0 <= p < p0 ==> !TravelerMatchAt(s, words, p)
    ensures CountBefore(s, words) == Some(NumberAt(s, p0))
  {
    var start := TravelerStart(s, words);
    forall j | 0 <= j < p0 ensures !start(j) {
      assert !TravelerMatchAt(s, words, j);
    }
    assert start(p0);
    FirstIndexIs(start, 0, |s|, p0);
  }

  /** Whitespace up to `e`, then one of `words`, found at index `i`. */
  lemma SpacedWordIntro(s: string, words: seq<string>, i: nat, e: nat)
    requires i < e <= |s| && SpacesEnd(s, i) == e
    requires WordAt(ToLower(s), words, 0, e)
    ensures SpacedWordAt(s, words, i)
  {
  }

  lemma TravelerWordsLowerCase(k: nat)
    requires k < |TravelerWords|
    ensures ToLower(TravelerWords[k]) == TravelerWords[k]
    ensures |TravelerWords[k]| > 0 && !IsWhitespace(TravelerWords[k][0])
  {
  }

  /** A count followed by a space and a lower-case word of the pattern is read back
      exactly when no digit comes before it. */
  lemma CountRoundTrip(pre: string, n: nat, words: seq<string>, k: nat, post: string)
    requires NoDigits(pre)
    requires k < |words| && ToLower(words[k]) == words[k]
    requires |words[k]| > 0 && !IsWhitespace(words[k][0])
    ensures CountBefore(pre + NatToString(n) + " " + words[k] + post, words) == Some(n)
  {
    DigitsRoundTrip(pre, NatToString(n), words, k, post);
  }

  /** A run of digits after a digit-free prefix and before a space and a word of the
      pattern is the count. */
  lemma DigitsRoundTrip(pre: string, ds: string, words: seq<string>, k: nat, post: string)
    requires |ds| >= 1 && AllDigits(ds)
    requires NoDigits(pre)
    requires k < |words| && ToLower(words[k]) == words[k]
    requires |words[k]| > 0 && !IsWhitespace(words[k][0])
    ensures CountBefore(pre + ds + " " + words[k] + post, words) == Some(DecimalValue(ds))
  {
    DigitLayout(pre, ds, words[k], post);
    WordLayout(pre, ds, words, k, post);
    MatchAfterDigitFree(pre + ds + " " + words[k] + post, |pre|, words);
  }

  /** A digit-free prefix, then the digits of the count, then a space: the pattern's run of
      digits starts right after the prefix and spells the count. */
  lemma DigitLayout(pre: string, ds: string, word: string, post: string)
    requires |ds| >= 1 && AllDigits(ds)
    requires NoDigits(pre)
    ensures var s := pre + ds + " " + word + post;
            && s[..|pre|] == pre
            && |pre| < |s| && IsDigit(s[|pre|])
            && DigitsEnd(s, |pre|) == |pre| + |ds| && NumberAt(s, |pre|) == DecimalValue(ds)
  {
    var s := pre + ds + " " + word + post;
    assert s == pre + (ds + ([' '] + (word + post)));
    assert s[|pre|..|pre| + |ds|] == ds;
    DigitPart(s, |pre|, ds);
  }

  /** The space and the word after the count form the rest of the pattern. */
  lemma WordLayout(pre: string, ds: string, words: seq<string>, k: nat, post: string)
    requires k < |words| && ToLower(words[k]) == words[k]
    requires |words[k]| > 0 && !IsWhitespace(words[k][0])
    requires var s := pre + ds + " " + words[k] + post;
             |pre| <= |s| && DigitsEnd(s, |pre|) == |pre| + |ds|
    ensures var s := pre + ds + " " + words[k] + post;
            |pre| <= |s| && SpacedWordAt(s, words, DigitsEnd(s, |pre|))
  {
    var s := pre + ds + " " + words[k] + post;
    assert s == (pre + ds) + ([' '] + (words[k] + post));
    assert s[|pre| + |ds|] == ' ';
    assert s[|pre| + |ds| + 1..|pre| + |ds| + 1 + |words[k]|] == words[k];
    SpacePart(s, |pre| + |ds|, words, k);
  }

  /** One space, then a lower-case word of the pattern that does not start with whitespace. */
  lemma SpacePart(s: string, i: nat, words: seq<string>, k: nat)
    requires k < |words| && ToLower(words[k]) == words[k]
    requires |words[k]| > 0 && !IsWhitespace(words[k][0])
    requires i < |s| && s[i] == ' ' && OccursAt(s, words[k], i + 1)
    ensures SpacedWordAt(s, words, i)
  {
    assert s[i + 1] == words[k][0];
    assert SpacesEnd(s, i + 1) == i + 1;
    OccursLowered(s, words[k], i + 1);
    WordAtIndex(ToLower(s), words, 0, k, i + 1);
    SpacedWordIntro(s, words, i, i + 1);
  }

  /** The first match is the one at `p0` when nothing before it is a digit. */
  lemma MatchAfterDigitFree(s: string, p0: nat, words: seq<string>)
    requires p0 < |s| && IsDigit(s[p0]) && SpacedWordAt(s, words, DigitsEnd(s, p0))
    requires NoDigits(s[..p0])
    ensures CountBefore(s, words) == Some(NumberAt(s, p0))
  {
    assert forall i :: 0 <= i < p0 ==> s[..p0][i] == s[i];
    assert TravelerMatchAt(s, words, p0);
    CountBeforeAt(s, words, p0);
  }

  /** `3 people`, `2 Guests`: a count followed by a space and a traveller word is read
      back exactly when no digit comes before it. */
  lemma TravelerRoundTrip(pre: string, n: nat, k: nat, post: string)
    requires NoDigits(pre)
    requires k < |TravelerWords|
    ensures TravelerCount(pre + NatToString(n) + " " + TravelerWords[k] + post) == Some(n)
  {
    TravelerWordsLowerCase(k);
    CountRoundTrip(pre, n, TravelerWords, k, post);
  }

  /** `parseTravelRequest` without the dates: the first known destination the message
      mentions, the budget, the number of travellers and the interests it mentions. */
  method ParseTravelRequest(message: string) returns (criteria: SearchCriteria)
    ensures criteria.destination.None? <==>
              forall k :: 0 <= k < |Destinations| ==> !Contains(ToLower(message), Destinations[k])
    ensures criteria.destination.Some? ==>
              exists k :: 0 <= k < |Destinations| && criteria.destination.value == Destinations[k]
                          && Contains(ToLower(message), Destinations[k])
                          && forall j :: 0 <= j < k ==> !Contains(ToLower(message), Destinations[j])
    ensures criteria.origin.None?
    ensures criteria.budget == BudgetAmount(message)
    ensures criteria.travelers == TravelerCount(message)
    ensures criteria.preferences.Some?
    ensures forall w :: w in criteria.preferences.value <==> w in PreferenceKeywords && Contains(ToLower(message), w)
    ensures IsSubsequence(criteria.preferences.value, PreferenceKeywords)
  {
    var destination: Option<string> := None;
    var i := 0;
    while i < |Destinations|
      invariant 0 <= i <= |Destinations|
      invariant destination.None?
      invariant forall j :: 0 <= j < i ==> !Contains(ToLower(message), Destinations[j])
    {
      if Contains(ToLower(message), Destinations[i]) {
        destination := Some(Destinations[i]);
        break;
      }
      i := i + 1;
    }

    var budget := BudgetAmount(message);
    var travelers := TravelerCount(message);
    var preferences := Filter(PreferenceKeywords, ContainedIn(ToLower(message)));
    FilterIn(PreferenceKeywords, ContainedIn(ToLower(message)));
    criteria := SearchCriteria(destination, None, budget, travelers, Some(preferences));
  }
}
