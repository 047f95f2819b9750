/** The static flight, hotel and activity tables that stand in for live inventory, and
    `getDestinationData`, which picks the records that belong to one destination. Ratings of
    activities are kept in tenths of a star (4.7 is 47); hotel ratings are whole stars. */
module MockData {
  import opened JsText
  import opened Seqs

  datatype CabinClass = Economy | Premium | Business | First

  datatype Flight = Flight(
    id: string,
    airline: string,
    flightNumber: string,
    origin: string,
    destination: string,
    departureTime: string,
    arrivalTime: string,
    duration: string,
    price: nat,
    cabinClass: CabinClass,
    stops: nat,
    aircraft: string)

  datatype HotelCategory = BudgetCategory | MidRange | Luxury

  datatype Hotel = Hotel(
    id: string,
    name: string,
    location: string,
    rating: nat,
    pricePerNight: nat,
    amenities: seq<string>,
    description: string,
    imageUrl: string,
    category: HotelCategory,
    reviewCount: nat)

  datatype ActivityType = Attraction | Restaurant | Tour | Entertainment | Shopping
  {
    /** The type as the source spells it. */
    function Name(): string {
      match this
      case Attraction => "attraction"
      case Restaurant => "restaurant"
      case Tour => "tour"
      case Entertainment => "entertainment"
      case Shopping => "shopping"
    }
  }

  datatype Activity = Activity(
    id: string,
    name: string,
    activityType: ActivityType,
    location: string,
    price: nat,
    duration: string,
    rating: nat,
    description: string,
    tags: seq<string>,
    operatingHours: string,
    bookingRequired: bool)

  const MockFlights: seq<Flight> := [
    Flight("AF1001", "Air France", "AF 1001", "JFK", "CDG", "22:30", "12:15+1", "7h 45m", 1245, Economy, 0, "Boeing 777-300ER"),
    Flight("DL264", "Delta Air Lines", "DL 264", "JFK", "CDG", "23:55", "13:40+1", "7h 45m", 1189, Economy, 0, "Airbus A330-300"),
    Flight("BA178", "British Airways", "BA 178", "JFK", "CDG", "09:50", "23:30", "10h 40m", 987, Economy, 1, "Boeing 787-9"),
    Flight("AZ608", "ITA Airways", "AZ 608", "JFK", "FCO", "21:40", "13:55+1", "8h 15m", 1356, Economy, 0, "Airbus A330-200"),
    Flight("DL216", "Delta Air Lines", "DL 216", "JFK", "FCO", "22:25", "14:40+1", "8h 15m", 1278, Economy, 0, "Airbus A330-900neo"),
    Flight("NH175", "ANA", "NH 175", "LAX", "NRT", "11:50", "16:35+1", "11h 45m", 1456, Economy, 0, "Boeing 777-300ER"),
    Flight("JL62", "JAL", "JL 62", "LAX", "NRT", "13:05", "17:50+1", "11h 45m", 1398, Economy, 0, "Boeing 787-9")
  ]

  const MockHotels: seq<Hotel> := [
    Hotel("paris-ritz", "The Ritz Paris", "Place Vendôme, 1st Arrondissement", 5, 1200,
      ["Spa", "Fitness Center", "Restaurant", "Bar", "Concierge", "Room Service"],
      "Legendary luxury hotel in the heart of Paris with opulent rooms and world-class service.",
      "/hotels/ritz-paris.jpg", Luxury, 2847),
    Hotel("paris-bristol", "Le Bristol Paris", "Faubourg Saint-Honoré, 8th Arrondissement", 5, 980,
      ["Spa", "Pool", "Restaurant", "Bar", "Garden", "Pet-Friendly"],
      "Palace hotel with exceptional French elegance and Michelin-starred dining.",
      "/hotels/bristol-paris.jpg", Luxury, 1923),
    Hotel("paris-marais", "Hotel des Grands Boulevards", "Le Marais, 4th Arrondissement", 4, 285,
      ["Restaurant", "Bar", "Free WiFi", "Concierge"],
      "Boutique hotel in historic Marais district with modern amenities and classic charm.",
      "/hotels/marais-paris.jpg", MidRange, 1456),
    Hotel("paris-budget", "Hotel Jeanne d'Arc", "Le Marais, 4th Arrondissement", 3, 145,
      ["Free WiFi", "Breakfast", "24/7 Reception"],
      "Charming budget hotel in the heart of historic Paris with comfortable rooms.",
      "/hotels/jeanne-arc-paris.jpg", BudgetCategory, 987),
    Hotel("rome-hassler", "Hotel Hassler Roma", "Spanish Steps, Historic Center", 5, 850,
      ["Spa", "Restaurant", "Bar", "Rooftop Terrace", "Concierge"],
      "Iconic luxury hotel overlooking the Spanish Steps with breathtaking city views.",
      "/hotels/hassler-rome.jpg", Luxury, 2341),
    Hotel("rome-artemide", "Hotel Artemide", "Near Termini Station, Historic Center", 4, 220,
      ["Rooftop Restaurant", "Spa", "Fitness Center", "Free WiFi"],
      "Modern 4-star hotel near major attractions with rooftop dining and city views.",
      "/hotels/artemide-rome.jpg", MidRange, 1678),
    Hotel("rome-budget", "The RomeHello", "Termini Station Area", 3, 89,
      ["Free WiFi", "Breakfast", "Luggage Storage"],
      "Modern budget hotel with great location near transportation and major sites.",
      "/hotels/romehello.jpg", BudgetCategory, 1234),
    Hotel("tokyo-mandarin", "Mandarin Oriental Tokyo", "Nihonbashi, Central Tokyo", 5, 720,
      ["Spa", "Multiple Restaurants", "Bar", "Fitness Center", "City Views"],
      "Ultra-luxury hotel with stunning Tokyo skyline views and world-class amenities.",
      "/hotels/mandarin-tokyo.jpg", Luxury, 1876),
    Hotel("tokyo-shibuya", "Shibuya Excel Hotel Tokyu", "Shibuya, Central Tokyo", 4, 180,
      ["Restaurant", "Free WiFi", "City Views", "Shopping Access"],
      "Modern hotel in the heart of Shibuya with direct access to shopping and nightlife.",
      "/hotels/shibuya-excel.jpg", MidRange, 2156)
  ]

  const MockActivities: seq<Activity> := [
    Activity("eiffel-tower", "Eiffel Tower Skip-the-Line Tour", Attraction, "Champ de Mars, 7th Arrondissement", 89, "2 hours", 47,
      "Skip the lines and ascend to the second floor of Paris's most iconic landmark.",
      ["iconic", "views", "photography", "must-see"], "9:30 AM - 11:45 PM", true),
    Activity("louvre-tour", "Louvre Museum Guided Tour", Attraction, "1st Arrondissement", 65, "3 hours", 46,
      "Expert-guided tour of the world's largest art museum including the Mona Lisa.",
      ["art", "culture", "history", "guided"], "9:00 AM - 6:00 PM", true),
    Activity("seine-cruise", "Seine River Evening Cruise with Dinner", Tour, "Seine River", 125, "2.5 hours", 45,
      "Romantic dinner cruise along the Seine with views of illuminated landmarks.",
      ["romantic", "dinner", "views", "evening"], "7:30 PM - 10:00 PM", true),
    Activity("montmartre-walk", "Montmartre Walking Tour", Tour, "Montmartre, 18th Arrondissement", 35, "2 hours", 44,
      "Explore the artistic quarter of Montmartre with Sacré-Cœur and local cafés.",
      ["walking", "art", "history", "neighborhood"], "10:00 AM - 6:00 PM", false),
    Activity("le-comptoir", "Le Comptoir du Relais", Restaurant, "Saint-Germain, 6th Arrondissement", 75, "2 hours", 43,
      "Authentic French bistro experience with traditional dishes and wine pairing.",
      ["french cuisine", "bistro", "wine", "authentic"], "12:00 PM - 2:00 PM, 7:00 PM - 11:00 PM", true),
    Activity("colosseum-tour", "Colosseum Underground Tour", Attraction, "Historic Center", 95, "3 hours", 48,
      "Exclusive access to the underground chambers and arena floor of the Colosseum.",
      ["history", "ancient", "underground", "exclusive"], "8:30 AM - 7:00 PM", true),
    Activity("vatican-tour", "Vatican Museums & Sistine Chapel Tour", Attraction, "Vatican City", 78, "4 hours", 47,
      "Comprehensive tour of Vatican Museums, Sistine Chapel, and St. Peter's Basilica.",
      ["art", "religion", "history", "michelangelo"], "8:00 AM - 6:00 PM", true),
    Activity("trastevere-food", "Trastevere Food Walking Tour", Tour, "Trastevere", 89, "3.5 hours", 46,
      "Taste authentic Roman cuisine while exploring the charming Trastevere neighborhood.",
      ["food", "walking", "local", "authentic"], "6:00 PM - 9:30 PM", true),
    Activity("roman-forum", "Roman Forum and Palatine Hill", Attraction, "Historic Center", 45, "2.5 hours", 44,
      "Explore the ruins of ancient Rome with skip-the-line access.",
      ["ancient", "ruins", "history", "archaeology"], "8:30 AM - 7:00 PM", false),
    Activity("da-enzo", "Da Enzo al 29", Restaurant, "Trastevere", 55, "1.5 hours", 45,
      "Family-run trattoria serving traditional Roman dishes in an intimate setting.",
      ["roman cuisine", "family-run", "traditional", "intimate"], "12:30 PM - 3:00 PM, 7:30 PM - 11:00 PM", true),
    Activity("tsukiji-tour", "Tsukiji Outer Market Food Tour", Tour, "Tsukiji", 98, "3 hours", 48,
      "Early morning tour of the famous fish market with fresh sushi breakfast.",
      ["food", "market", "sushi", "early morning"], "5:00 AM - 8:00 AM", true),
    Activity("senso-ji", "Senso-ji Temple and Asakusa District", Attraction, "Asakusa", 0, "2 hours", 45,
      "Visit Tokyo's oldest temple and explore traditional shopping streets.",
      ["temple", "traditional", "free", "culture"], "6:00 AM - 5:00 PM", false),
    Activity("shibuya-crossing", "Shibuya Sky Observation Deck", Attraction, "Shibuya", 28, "1 hour", 46,
      "Panoramic views of Tokyo from the famous Shibuya crossing area.",
      ["views", "modern", "cityscape", "photography"], "9:00 AM - 11:00 PM", false),
    Activity("jiro-sushi", "Sukiyabashi Jiro Experience", Restaurant, "Ginza", 450, "30 minutes", 49,
      "World-renowned sushi experience at the legendary three-Michelin-starred restaurant.",
      ["sushi", "michelin", "legendary", "expensive"], "11:30 AM - 2:00 PM, 5:00 PM - 8:30 PM", true)

  ]

  // ---------------------------------------------------------------------------
  // getDestinationData

  /** A flight serves the destination when its airport code, lower-cased, contains the
      destination, or when the destination names the city of one of the three known
      airports. */
  predicate FlightServes(normalizedDest: string, f: Flight) {
    || Contains(ToLower(f.destination), normalizedDest)
    || (f.destination == "CDG" && Contains(normalizedDest, "paris"))
    || (f.destination == "FCO" && Contains(normalizedDest, "rome"))
    || (f.destination == "NRT" && Contains(normalizedDest, "tokyo"))
  }

  /** A hotel belongs to the destination when its lower-cased location or its id contains
      it. */
  predicate HotelIn(normalizedDest: string, h: Hotel) {
    Contains(ToLower(h.location), normalizedDest) || Contains(h.id, normalizedDest)
  }

  predicate ActivityIn(normalizedDest: string, a: Activity) {
    Contains(ToLower(a.location), normalizedDest) || Contains(a.id, normalizedDest)
  }

  function ServesDestination(normalizedDest: string): Flight -> bool {
    f => FlightServes(normalizedDest, f)
  }

  function HotelsIn(normalizedDest: string): Hotel -> bool {
    h => HotelIn(normalizedDest, h)
  }

  function ActivitiesIn(normalizedDest: string): Activity -> bool {
    a => ActivityIn(normalizedDest, a)
  }

  datatype DestinationData = DestinationData(flights: seq<Flight>, hotels: seq<Hotel>, activities: seq<Activity>)

  /** The three tables `getDestinationData` filters. */
  const MockTables: DestinationData := DestinationData(MockFlights, MockHotels, MockActivities)

  /** The flights of the table that serve the destination, in table order. */
  function FlightsFor(flights: seq<Flight>, destination: string): (r: seq<Flight>)
    ensures IsSubsequence(r, flights)
  {
    Filter(flights, ServesDestination(ToLower(destination)))
  }

  /** The hotels of the table that lie at the destination, in table order. */
  function HotelsFor(hotels: seq<Hotel>, destination: string): (r: seq<Hotel>)
    ensures IsSubsequence(r, hotels)
  {
    Filter(hotels, HotelsIn(ToLower(destination)))
  }

  /** The activities of the table that lie at the destination, in table order. */
  function ActivitiesFor(activities: seq<Activity>, destination: string): (r: seq<Activity>)
    ensures IsSubsequence(r, activities)
  {
    Filter(activities, ActivitiesIn(ToLower(destination)))
  }

  /** The records of each of `tables` that belong to the destination. */
  function DestinationRecords(tables: DestinationData, destination: string): DestinationData {
    DestinationData(
      FlightsFor(tables.flights, destination),
      HotelsFor(tables.hotels, destination),
      ActivitiesFor(tables.activities, destination))
  }

  /** `getDestinationData`: the records of the mock tables that belong to the destination. */
  function GetDestinationData(destination: string): DestinationData {
    DestinationRecords(MockTables, destination)
  }

  /** A flight is returned exactly when it is in the table and serves the destination. */
  lemma FlightsForDestination(flights: seq<Flight>, destination: string)
    ensures forall f :: f in FlightsFor(flights, destination)
                        <==> f in flights && FlightServes(ToLower(destination), f)
  {
    FilterIn(flights, ServesDestination(ToLower(destination)));
  }

  /** A hotel is returned exactly when it is in the table and lies at the destination. */
  lemma HotelsForDestination(hotels: seq<Hotel>, destination: string)
    ensures forall h :: h in HotelsFor(hotels, destination)
                        <==> h in hotels && HotelIn(ToLower(destination), h)
  {
    FilterIn(hotels, HotelsIn(ToLower(destination)));
  }

  /** An activity is returned exactly when it is in the table and lies at the destination. */
  lemma ActivitiesForDestination(activities: seq<Activity>, destination: string)
    ensures forall a :: a in ActivitiesFor(activities, destination)
                        <==> a in activities && ActivityIn(ToLower(destination), a)
  {
    FilterIn(activities, ActivitiesIn(ToLower(destination)));
  }

  /** The destination matters only through its lower-cased form. */
  lemma DestinationDataIgnoresCase(tables: DestinationData, d1: string, d2: string)
    requires ToLower(d1) == ToLower(d2)
    ensures DestinationRecords(tables, d1) == DestinationRecords(tables, d2)
  {
  }

  /** Every string contains the empty string, so an empty destination returns the three
      tables unchanged. */
  lemma EmptyDestinationKeepsAll(tables: DestinationData)
    ensures DestinationRecords(tables, "") == tables
  {
    var d := ToLower("");
    assert d == "";
    forall f | f in tables.flights ensures FlightServes(d, f) {
      ContainsEmpty(ToLower(f.destination));
    }
    forall h | h in tables.hotels ensures HotelIn(d, h) {
      ContainsEmpty(ToLower(h.location));
    }
    forall a | a in tables.activities ensures ActivityIn(d, a) {
      ContainsEmpty(ToLower(a.location));
    }
    FilterAll(tables.flights, ServesDestination(d));
    FilterAll(tables.hotels, HotelsIn(d));
    FilterAll(tables.activities, ActivitiesIn(d));
  }

  /** The first `n` hotels, whose ids all contain the destination, are all returned. */
  lemma HotelsKeptById(hotels: seq<Hotel>, destination: string, n: nat)
    requires n <= |hotels|
    requires forall k :: 0 <= k < n ==> Contains(hotels[k].id, ToLower(destination))
    ensures forall k :: 0 <= k < n ==> hotels[k] in HotelsFor(hotels, destination)
  {
    HotelsForDestination(hotels, destination);
  }

  /** "paris" selects exactly the three flights into CDG. */
  lemma ParisFlights()
    ensures FlightsFor(MockFlights, "paris") == MockFlights[..3]
  {
    ParisServedFlights();
    FilterPrefix(MockFlights, ServesDestination(ToLower("paris")), 3);
  }

  /** Only the first three flights, the ones into CDG, serve "paris". */
  lemma ParisServedFlights()
    ensures forall k :: 0 <= k < |MockFlights| ==> (ServesDestination(ToLower("paris"))(MockFlights[k]) <==> k < 3)
  {
    var d := ToLower("paris");
    assert d == "paris";
    assert OccursAt(d, "paris", 0);
    assert !Contains(d, "rome") by {
      forall i | 0 <= i <= 1 ensures !OccursAt(d, "rome", i) {
        assert d[i] != 'r';
      }
    }
    assert !Contains(d, "tokyo") by {
      assert d[0] != 't';
    }
    forall k | 0 <= k < |MockFlights| ensures FlightServes(d, MockFlights[k]) <==> k < 3 {
      var code := ToLower(MockFlights[k].destination);
      assert |code| == 3;
      assert !Contains(code, d);
      assert MockFlights[k].destination == if k < 3 then "CDG" else if k < 5 then "FCO" else "NRT";
    }
  }

  /** "paris" keeps the four hotels whose ids start with "paris-". */
  lemma ParisHotels()
    ensures forall k :: 0 <= k < 4 ==> MockHotels[k] in HotelsFor(MockHotels, "paris")
  {
    assert ToLower("paris") == "paris";
    ParisHotelIds();
    HotelsKeptById(MockHotels, "paris", 4);
  }

  lemma ParisHotelIds()
    ensures forall k :: 0 <= k < 4 ==> Contains(MockHotels[k].id, "paris")
  {
    ParisPrefix(MockHotels[0].id);
    ParisPrefix(MockHotels[1].id);
    ParisPrefix(MockHotels[2].id);
    ParisPrefix(MockHotels[3].id);
  }

  lemma ParisPrefix(id: string)
    requires |id| >= 6 && id[..6] == "paris-"
    ensures Contains(id, "paris")
  {
    assert id[..5] == "paris";
    assert OccursAt(id, "paris", 0);
  }
}
