# ai-travel: a verified model of the deterministic core

This project models in Dafny the logic of the ai-travel chat assistant that does not depend on
the network, the clock or the screen. It covers five parts:

- **The follow-up query classifier** (`QueryDetection`).
  - It scores a message against five keyword tables (hotel, flight, activity, budget, date).
  - It keeps the first category with the strictly highest score.
  - It maps the winning intent to a target section and picks a loading message from that
    category's pool.
  - Two threshold passes may then rewrite the result: the "multiple" override and the
    "general" fallback.
  - It also decides whether a message is a follow-up, and expands a target section into
    per-section loading states.
- **The mock travel services** (`TravelService`).
  - Flight, hotel and activity search over the static tables: every given criterion filters,
    then a stable sort.
  - The city-to-airport lookup, with JFK as the default.
  - The day-by-day itinerary text.
  - The parser that reads a destination, a budget, a traveller count and preferences out of a
    chat message.
- **The mock tables and `getDestinationData`** (`MockData`): three order-preserving filters
  over the flight, hotel and activity tables.
- **The destination image lookup and the gradient fallback** (`DestinationImages`).
  - The image lookup tries the exact key first, then the first key that overlaps the
    destination.
  - The gradient is chosen by the UTF-16 code-unit sum modulo six.
- **The pure parts of the chat endpoint** (`ChatRoute`).
  - Request validation and the missing-key error.
  - The three-pattern day-count extractor.
  - The rule that appends the duration note to the system prompt.
  - The assembly of the message list from the conversation history.

Four shared modules stand in for the JavaScript library calls the code uses:

- `JsText`: ASCII `toLowerCase`, `includes`, `split(/\s+/)`, `trim`, digit runs, `parseInt`
  and `String(n)`.
- `Seqs`: `filter`, `find`, `some`, and the leftmost-match rule of a regular expression.
- `Sorting`: a stable insertion sort that stands for `Array.prototype.sort`.
- `Wrappers`: `Option`.

Code that works step by step is modelled by methods whose loops are proved against functions:

- `analyzeQuery` and its keyword loop;
- the three search functions, which reassign a filtered array and sort it;
- the itinerary builder, which appends to a string;
- `parseTravelRequest`, which fills in the criteria;
- `createSectionLoadingState`, which pushes onto an array.

The other code is modelled by functions, and the properties are lemmas about those functions.

Numbers are exact: nothing in this model uses floating point.

- A confidence `matchCount / words.length` is kept as the pair (score, word count).
- The thresholds 0.3 and 0.1 become `10 * score < 3 * W` and `10 * score < W`.
  `QueryDetection.ConfidenceBelowExact` proves that these agree with the real-valued division.
- The hotel value order `rating / (pricePerNight / 100)` is compared by cross-multiplying.
- The budget limits `budget / 5` and `budget * 0.3 / 3` become `5 * price <= budget` and
  `10 * price <= budget`.
- Decimal activity ratings such as 4.7 are kept in tenths (47).

## Model

| member | source | states |
|---|---|---|
| QueryDetection.FiveLoadingMessages | src/lib/queryDetection.ts:14-84 | every category of the keyword table has a pool of exactly five loading messages |
| QueryDetection.HotelKeywords | src/lib/queryDetection.ts:16-19 | the hotel table starts with "hotel" and holds the two-word phrase "cheaper hotel" at position 8 |
| QueryDetection.ConfidenceBelowExact | src/lib/queryDetection.ts:114 | the integer threshold test `10*score < t*W` is exactly the real comparison `score/W < t/10` |
| QueryDetection.MatchCountConcat | src/lib/queryDetection.ts:106-111 | the match count of a keyword list is the sum of the counts of its parts |
| QueryDetection.MatchCountSingle | src/lib/queryDetection.ts:107-108 | a keyword that occurs in the query contributes its word count |
| QueryDetection.TwoMatchesScore | src/lib/queryDetection.ts:106-111 | two distinct matched keywords contribute at least the sum of their word counts |
| QueryDetection.MatchCountZero | src/lib/queryDetection.ts:106-111 | a category scores zero exactly when none of its keywords occurs in the query |
| QueryDetection.PhraseWeight | src/lib/queryDetection.ts:108 | a phrase of two space-separated parts weighs at least two |
| QueryDetection.Scores | src/lib/queryDetection.ts:100-111 | one score per category, each the match count of that category's keywords |
| QueryDetection.Winner | src/lib/queryDetection.ts:91-127 | no winner iff every score is zero; otherwise the winner holds the largest score, every earlier category scores strictly less, and its score is positive |
| QueryDetection.FirstMaxUnique | src/lib/queryDetection.ts:116 | the first position of the maximum is unique |
| QueryDetection.WinnerSnoc | src/lib/queryDetection.ts:116-127 | a category appended at the end wins only when it beats every earlier score strictly |
| QueryDetection.WinnerHoldsMax | src/lib/queryDetection.ts:116-127 | the winning score (0 when none) is the maximum of all scores |
| QueryDetection.TargetSection | src/lib/queryDetection.ts:151-165 | hotel, flight and activity map to their own sections, and only they do; budget and date map to the multiple section |
| QueryDetection.LoadingMessage | src/lib/queryDetection.ts:168-187 | the message is from the pool; the tiers cheap/budget, then luxury/premium, then different/alternative are tried in that order, and the first tier whose word occurs in the query and whose pool has a matching message gives the first such message in pool order; when no tier applies, the message at the random index |
| QueryDetection.BestOfStep | src/lib/queryDetection.ts:116-127 | each loop iteration replaces the best match by the category's candidate exactly when its score is strictly higher |
| QueryDetection.BestOfAll | src/lib/queryDetection.ts:100-128 | after the loop the best match is the initial general result when nothing scored, else the winner's candidate |
| QueryDetection.CountMatches | src/lib/queryDetection.ts:102-111 | the keyword loop computes the matched keywords in table order and their total word count |
| QueryDetection.AnalyzeQuery | src/lib/queryDetection.ts:87-148 | the imperative analysis, with its in-place field updates, returns exactly the value the analysis function specifies |
| QueryDetection.AnalyzeReportsWinner | src/lib/queryDetection.ts:87-128 | the word count is 1 plus the number of whitespace runs, the score is the maximum category score, and the keywords are the winner's matched phrases in table order |
| QueryDetection.AnalyzeOutcome | src/lib/queryDetection.ts:130-147 | below 0.1 the result is general and "Understanding"; else below 0.3 with a change word it is multiple and "Updating your trip plan"; else it is the winner's intent, section and a message from its pool |
| QueryDetection.NoCategoryOffersPlaceholder | src/lib/queryDetection.ts:14-95 | no category pool contains the initial "Processing your request" message |
| QueryDetection.NeverProcessingMessage | src/lib/queryDetection.ts:91-147 | the analysis never returns the initial placeholder message |
| QueryDetection.NoKeywordIsGeneral | src/lib/queryDetection.ts:91-145 | a query containing no keyword of any category gets intent general and no keywords |
| QueryDetection.FallbackOverridesMultiSection | src/lib/queryDetection.ts:134-145 | below 0.1 the general fallback overrides the multiple-section rewrite even when a change word occurs |
| QueryDetection.ConfidenceCanExceedOne | src/lib/queryDetection.ts:106-114 | a two-word query containing "cheaper hotel" has a score above its word count, so its confidence exceeds 1 |
| QueryDetection.ScoreAboveWords | src/lib/queryDetection.ts:114-127 | when the first category outscores the word count, so does the reported result |
| QueryDetection.CheaperHotelScore | src/lib/queryDetection.ts:16-19 | a query containing "cheaper hotel" gives the hotel category a score of at least 3 |
| QueryDetection.IsFollowUpQuery | src/lib/queryDetection.ts:190-201 | true iff there is existing trip data and the lower-cased query contains one of the 17 indicators |
| QueryDetection.CreateSectionLoadingState | src/lib/queryDetection.ts:210-231 | multiple gives the three fixed loading entries, general gives none, any other section gives one entry with the given message; every entry is loading |
| JsText.ToLower | src/lib/queryDetection.ts:88 | same length, each character lower-cased |
| JsText.ToLowerIdempotent | src/lib/queryDetection.ts:88 | lower-casing twice is lower-casing once |
| JsText.SplitOnWhitespace | src/lib/queryDetection.ts:89 | the split always has at least one piece, even for the empty string |
| JsText.SplitCountsRuns | src/lib/queryDetection.ts:89 | the number of pieces is one more than the number of maximal whitespace runs |
| JsText.SplitPiecesHaveNoSpace | src/lib/queryDetection.ts:89 | no piece of the split contains whitespace |
| JsText.Trim | src/app/api/chat/route.ts:140 | the result occurs in the input with only whitespace around it, neither end of a non-empty result is whitespace, and it is empty iff the input is all whitespace |
| JsText.NatToString | src/app/api/chat/route.ts:178 | the decimal text of n is non-empty digits without a leading zero and reads back as n |
| JsText.DigitPart | src/app/api/chat/route.ts:167 | a run of digits ending before a non-digit is where the digit run ends, and `parseInt` reads its value |
| JsText.OccursLowered | src/lib/mockData.ts:464 | a lower-case word found in a text is found at the same place in the lower-cased text |
| Seqs.Filter | src/lib/mockData.ts:466-481 | the result keeps exactly the elements satisfying the test, in their order, as a subsequence |
| Seqs.FilterIn | src/lib/mockData.ts:466-481 | membership in the filtered list is membership and the test |
| Seqs.FilterTwice | src/lib/travelService.ts:43-61 | filtering twice is filtering once by the conjunction, as the successive search filters do |
| Seqs.FilterPrefix | src/lib/mockData.ts:466-471 | when exactly the first n elements pass, the filter returns that prefix |
| Seqs.Find | src/lib/queryDetection.ts:171 | the first element satisfying the test, none iff no element does |
| Seqs.Any | src/lib/queryDetection.ts:132 | true iff some element satisfies the test |
| Seqs.FirstIndex | src/app/api/chat/route.ts:165 | the least index in range satisfying the test, none iff no index does |
| Sorting.SortBy | src/lib/travelService.ts:64 | the sorted list is a permutation of its input |
| Sorting.InsertSorted | src/lib/travelService.ts:64 | inserting into a sorted list under a total preorder keeps it sorted |
| Sorting.SortBySorted | src/lib/travelService.ts:64 | the result is sorted under any total preorder |
| Sorting.SortByStable | src/lib/travelService.ts:64 | elements the comparator ranks equal keep their input order |
| Sorting.SortByProperties | src/lib/travelService.ts:64 | same elements, sorted, and stable |
| MockData.FlightsFor | src/lib/mockData.ts:466-471 | the returned flights are a subsequence of the table |
| MockData.HotelsFor | src/lib/mockData.ts:473-476 | the returned hotels are a subsequence of the table |
| MockData.ActivitiesFor | src/lib/mockData.ts:478-481 | the returned activities are a subsequence of the table |
| MockData.FlightsForDestination | src/lib/mockData.ts:466-471 | a flight is returned iff its lower-cased code contains the destination, or it is CDG, FCO or NRT and the destination names Paris, Rome or Tokyo |
| MockData.HotelsForDestination | src/lib/mockData.ts:473-476 | a hotel is returned iff its lower-cased location or its id contains the lower-cased destination |
| MockData.ActivitiesForDestination | src/lib/mockData.ts:478-481 | an activity is returned iff its lower-cased location or its id contains the lower-cased destination |
| MockData.DestinationDataIgnoresCase | src/lib/mockData.ts:463-464 | destinations with the same lower-case form get the same data |
| MockData.EmptyDestinationKeepsAll | src/lib/mockData.ts:463-484 | the empty destination returns the three tables unchanged |
| MockData.HotelsKeptById | src/lib/mockData.ts:473-476 | hotels whose ids contain the destination are all returned |
| MockData.ParisFlights | src/lib/mockData.ts:45-147 | "paris" selects exactly the first three flights, the ones into CDG |
| MockData.ParisServedFlights | src/lib/mockData.ts:466-471 | only the three CDG flights serve "paris" |
| MockData.ParisHotels | src/lib/mockData.ts:150-203 | the four paris-* hotels are returned for "paris" |
| MockData.ParisHotelIds | src/lib/mockData.ts:153-192 | the ids of the first four hotels contain "paris" |
| TravelService.GetAirportCode | src/lib/travelService.ts:191-212 | the table's code for a known lower-cased city or code, JFK for anything else; always one of five codes |
| TravelService.FilterFlights | src/lib/travelService.ts:38-61 | the three successive filters keep exactly the flights matching every given criterion, in table order |
| TravelService.SearchFlightsIn | src/lib/travelService.ts:32-71 | exactly the matching flights, as a permutation, sorted by price, ties in table order, with their count and the criteria |
| TravelService.SearchFlights | src/lib/travelService.ts:32-71 | the same over the mock flight table |
| TravelService.ValueTransitive | src/lib/travelService.ts:100-104 | the cross-multiplied value order is transitive for positive prices |
| TravelService.ValueOrderTotal | src/lib/travelService.ts:100-104 | the value order is a total preorder on hotels with positive prices |
| TravelService.MockHotelPricesPositive | src/lib/mockData.ts:150-271 | every mock hotel has a positive price per night |
| TravelService.FilterHotels | src/lib/travelService.ts:80-97 | the filters keep exactly the hotels at the destination whose five nights fit in the budget |
| TravelService.SearchHotelsIn | src/lib/travelService.ts:74-111 | exactly the matching hotels, as a permutation, sorted by rating per price, ties in table order, with their count and the criteria |
| TravelService.SearchHotels | src/lib/travelService.ts:74-111 | the same over the mock hotel table |
| TravelService.FilterActivities | src/lib/travelService.ts:120-151 | the filters keep exactly the activities at the destination that suit a preference (when any) and cost at most a tenth of the budget |
| TravelService.SearchActivitiesIn | src/lib/travelService.ts:114-161 | exactly the matching activities, as a permutation, sorted by rating downwards, ties in table order, with their count and the criteria |
| TravelService.SearchActivities | src/lib/travelService.ts:114-161 | the same over the mock activity table |
| TravelService.MockFlightDestinations | src/lib/mockData.ts:45-147 | every mock flight lands at CDG, FCO or NRT |
| TravelService.NoFlightsToUnservedAirport | src/lib/travelService.ts:41-46 | with a destination whose code no flight has, no flight matches |
| TravelService.UnknownDestinationFindsNoFlights | src/lib/travelService.ts:41-46 | a destination missing from the airport table maps to JFK and finds no mock flights |
| TravelService.TopActivities | src/lib/travelService.ts:222 | the first min(2*days, n) activities |
| TravelService.DayActivities | src/lib/travelService.ts:236 | at most two activities a day, none iff the top list ends before the day |
| TravelService.ActivityBlocksSnoc | src/lib/travelService.ts:239-245 | one more activity appends its block, labelled by its position |
| TravelService.AppendHotel | src/lib/travelService.ts:226-231 | appends the first hotel's block, or nothing when there is no hotel |
| TravelService.AppendActivities | src/lib/travelService.ts:239-245 | the `forEach` appends the block of each activity in order |
| TravelService.AppendDay | src/lib/travelService.ts:233-248 | appends the day heading and either its activities or the free-day line |
| TravelService.GenerateItinerary | src/lib/travelService.ts:215-252 | the loop builds the header, the hotel block and one section per day, in order |
| TravelService.ScheduledPrefix | src/lib/travelService.ts:233-237 | days 1..n take the top activities in order, two a day |
| TravelService.ItineraryUsesTopActivities | src/lib/travelService.ts:222-237 | over all days the itinerary schedules exactly the top activities, in order |
| TravelService.FreeDays | src/lib/travelService.ts:236-248 | a day is a free day iff the activity list ends before it |
| TravelService.BudgetDigits | src/lib/travelService.ts:268-270 | the captured amount without its comma is a non-empty string of digits |
| TravelService.BudgetAmount | src/lib/travelService.ts:268-271 | no budget iff no dollar sign is followed by a digit |
| TravelService.BudgetMatchAt | src/lib/travelService.ts:268-270 | the amount is read at the first dollar-digit position |
| TravelService.BudgetRoundTrip | src/lib/travelService.ts:268-271 | "$" followed by the decimal text of n, before any non-digit non-comma, reads back as n |
| TravelService.BudgetDigitsWithSeparator | src/lib/travelService.ts:268-270 | with a comma group the captured digits are the two runs joined |
| TravelService.BudgetWithSeparator | src/lib/travelService.ts:268-270 | a first dollar amount with one comma group reads as the two digit runs joined |
| TravelService.BudgetStopsAtSecondComma | src/lib/travelService.ts:268-270 | only one comma group is read: "$a,b,c" gives the value of a followed by b |
| TravelService.BudgetStopsAtSecondSeparator | src/lib/travelService.ts:268-270 | "$1,000,000" gives 1000 |
| TravelService.WordAtIndex | src/lib/travelService.ts:274 | a word of the list found at a position makes the alternation match there |
| TravelService.CountBefore | src/lib/travelService.ts:274-277 | no count iff the digits-whitespace-word pattern matches nowhere |
| TravelService.CountBeforeAt | src/lib/travelService.ts:274-277 | the count is the number at the leftmost match |
| TravelService.CountRoundTrip | src/lib/travelService.ts:274-277 | digit-free text, the decimal text of n, a space and a listed word gives n |
| TravelService.DigitsRoundTrip | src/lib/travelService.ts:274-277 | digit-free text, digits, a space and a listed word gives the digits' value |
| TravelService.TravelerRoundTrip | src/lib/travelService.ts:274-277 | "N people", "N guest" and the like after digit-free text give N travellers |
| TravelService.ParseTravelRequest | src/lib/travelService.ts:255-283 | the destination is the first listed city in the lower-cased message, or none; the budget and traveller count are the pattern readings; the preferences are the contained keywords in list order |
| DestinationImages.ImageFor | src/lib/destinationImages.ts:104-119 | a result is an image of the table; none iff no key equals the destination and none overlaps it once lower-cased |
| DestinationImages.FindFirst | src/lib/destinationImages.ts:112-116 | the first entry that passes the test is the one found |
| DestinationImages.ExactKeyWins | src/lib/destinationImages.ts:106-108 | a key equal to the destination returns its image |
| DestinationImages.FirstOverlapWins | src/lib/destinationImages.ts:111-116 | without an exact key, the first overlapping entry in table order returns its image |
| DestinationImages.EmptyGetsFirst | src/lib/destinationImages.ts:112-114 | the empty destination gets the first entry, since every key contains "" |
| DestinationImages.EmptyDestinationGetsLondon | src/lib/destinationImages.ts:10-16 | the empty destination gets the London image |
| DestinationImages.ParisFranceIsExact | src/lib/destinationImages.ts:26-30 | "Paris, France" finds its own entry by exact key |
| DestinationImages.CodeUnits | src/lib/destinationImages.ts:124 | one UTF-16 unit below 0x10000, two above |
| DestinationImages.CodeUnitsDecode | src/lib/destinationImages.ts:124 | a single unit is the code point; a pair is a high and a low surrogate that decode to the code point |
| DestinationImages.GradientFor | src/lib/destinationImages.ts:122-126 | always one of the gradients; the empty string gets the first |
| DestinationImages.GetGradientFallback | src/lib/destinationImages.ts:122-126 | always one of the six gradients |
| DestinationImages.ReduceIsTotal | src/lib/destinationImages.ts:124 | the left fold adds the total of the units to the start value |
| DestinationImages.Utf16Total | src/lib/destinationImages.ts:124 | the code-unit total is the character-by-character sum |
| DestinationImages.HashIsCharSum | src/lib/destinationImages.ts:124 | the hash is the sum of each character's code units |
| DestinationImages.CharSumConcat | src/lib/destinationImages.ts:124 | the character sum of a concatenation is the sum of the parts |
| DestinationImages.CharSumPermutation | src/lib/destinationImages.ts:124 | strings with the same characters have the same sum |
| DestinationImages.GradientIgnoresOrder | src/lib/destinationImages.ts:122-126 | reordering the characters of the destination keeps its gradient |
| ChatRoute.ValidMessageIff | src/app/api/chat/route.ts:140-145 | a message is accepted iff it is a string with a non-whitespace character |
| ChatRoute.FirstMatch | src/app/api/chat/route.ts:165 | no match iff the pattern matches nowhere; otherwise the leftmost position where it matches |
| ChatRoute.ExtractFrom | src/app/api/chat/route.ts:164-170 | a count is found only where some pattern matches |
| ChatRoute.ExtractFromNone | src/app/api/chat/route.ts:170 | no pattern matching anywhere gives null |
| ChatRoute.ExtractStep | src/app/api/chat/route.ts:164-169 | the first pattern that matches decides, with the number at its leftmost match |
| ChatRoute.ExtractDurationSteps | src/app/api/chat/route.ts:157-171 | the extractor tries "N days?", then "N day trip", then "N -?day", in that order |
| ChatRoute.DayTripIsDays | src/app/api/chat/route.ts:159-160 | every match of the day-trip pattern is a match of the days pattern at the same place |
| ChatRoute.DaysIsHyphenDay | src/app/api/chat/route.ts:159-161 | every match of the days pattern is a match of the hyphen pattern |
| ChatRoute.SecondPatternNeverDecides | src/app/api/chat/route.ts:158-169 | the extractor gives the same result without its second pattern |
| ChatRoute.NoDurationIff | src/app/api/chat/route.ts:157-171 | null iff no digit run is followed by an optional hyphen, whitespace and "day" |
| ChatRoute.FirstMatchAt | src/app/api/chat/route.ts:165 | a match after digit-free text is the leftmost one |
| ChatRoute.CountThenSpaces | src/app/api/chat/route.ts:159 | digits then whitespace before "d": where each run ends and the count they spell |
| ChatRoute.DaysAssemble | src/app/api/chat/route.ts:159 | "day" right after the count and its whitespace completes the first pattern |
| ChatRoute.DaysRoundTrip | src/app/api/chat/route.ts:159-167 | digit-free text, the decimal text of n, whitespace and "day" gives n |
| ChatRoute.HyphenMatch | src/app/api/chat/route.ts:161 | digits, "-" and "day" match the third pattern with that count |
| ChatRoute.NoDaysBeforeHyphen | src/app/api/chat/route.ts:159 | when the only digits are followed by a hyphen, the first pattern matches nowhere |
| ChatRoute.HyphenRoundTrip | src/app/api/chat/route.ts:161-167 | "N-day" amid digit-free text fails the first patterns and gives n through the third |
| ChatRoute.FiveDays | src/app/api/chat/route.ts:157-171 | "5 days" gives 5 |
| ChatRoute.SevenDashDay | src/app/api/chat/route.ts:157-171 | "7-day" gives 7 |
| ChatRoute.SystemPromptFor | src/app/api/chat/route.ts:173-179 | the base prompt is kept as a prefix, and the prompt is unchanged iff no duration was found or it is 0 |
| ChatRoute.PromptNamesTheDays | src/app/api/chat/route.ts:178 | for a non-zero count the note names it, followed by "-day trip", right after the lead-in |
| ChatRoute.ZeroDaysAddsNothing | src/app/api/chat/route.ts:173-179 | "0 days" reads as 0 and adds no note, since 0 is falsy |
| ChatRoute.ToMessage | src/app/api/chat/route.ts:192-195 | the role is user iff the sender is "user", and never system |
| ChatRoute.HistoryMessages | src/app/api/chat/route.ts:192-195 | one message per kept entry, in order |
| ChatRoute.BuildMessages | src/app/api/chat/route.ts:184-201 | the system prompt first, the kept history mapped in order, the current message last |
| ChatRoute.HistoryMessagesAreClean | src/app/api/chat/route.ts:190-195 | every history message is non-empty, not system, and trimmed at both ends |
| ChatRoute.FullHistoryKept | src/app/api/chat/route.ts:190-195 | when every entry has text, each becomes one message in order |
| ChatRoute.BlankHistoryDropped | src/app/api/chat/route.ts:190-195 | when no entry has text, only the system prompt and the message remain |
| ChatRoute.HandleChat | src/app/api/chat/route.ts:136-201 | 400 with "Valid message content is required" iff the message is invalid; 500 with the key error iff it is valid and the key is missing; otherwise the completion messages |
| ChatRoute.CompletionMessages | src/app/api/chat/route.ts:184-201 | a valid message with a key gives the system prompt with the duration rule first and the message as sent last |
| ChatRoute.BlankMessageRefused | src/app/api/chat/route.ts:140-145 | a whitespace-only message gets the 400 error whatever the history and key |

## Left out

- The OpenAI call, the response stream, `NextResponse` and the environment: the API key is the boolean `apiKeyConfigured`, and the completion is the message list the handler would send.
- The system prompt text: it is the parameter `basePrompt` of `ChatRoute.SystemPromptFor` and `ChatRoute.HandleChat`.
- `request.json()` failing, and a `conversationHistory` that is not an array: the handler's catch turns both into a 500, and both are outside this model. A history entry that is `null` or not an object is modelled as one whose sender and content are both absent, which the filter drops, as `msg &&` does.
- `Math.random` in `getRandomLoadingMessage`: it is the index parameter `pick`, which must be in range, as `Math.floor(Math.random() * n)` is.
- The artificial delays, the `async` wrapping and `searchTravel`'s `Promise.all`/`try`-`catch`: the three searches run synchronously, and none of them can throw.
- The `Date`-based `checkIn`/`checkOut` of `parseTravelRequest`: they depend on the clock, and the criteria here have no date fields.
- `getUnsplashImageUrl` and `encodeURIComponent`, and the `AIRLINE_LOGOS`, `HOTEL_AMENITIES` and `ACTIVITY_ICONS` tables: they are presentation data and are not part of this model.
- The React components in `src/components/` are not part of this model.
- Floating point: the ratios and budget shares are exact integer comparisons (see above), and decimal ratings are in tenths. `reviewScore` and map coordinates are dropped.
- `toLowerCase` is ASCII-only: non-ASCII letters keep their case.
- `parseInt` on very long digit runs: JavaScript loses precision beyond 2^53; here numbers are unbounded.
- DestinationImages.ImageFor: a key such as "constructor" that JavaScript finds on `Object.prototype` is not looked up there; only the table's own entries are.
- TravelService.GetAirportCode: a location that lower-cases to "constructor" or "__proto__" finds an `Object.prototype` member in `locationMap`, which is truthy, so the source returns that member and not JFK, and the promise of one of five codes does not hold for it; a flight search with such an origin or destination then keeps no flight, while the model maps it to JFK and keeps the JFK flights. Only the table's own entries are modelled.
- DestinationImages.GradientFor: the code-unit sum is unbounded; JavaScript's floating-point sum is exact only below 2^53, which no string of fewer than tens of billions of characters reaches.
- MockData.ParisHotels: proves that the four paris-* hotels are returned for "paris", not that the other hotels and all activities are excluded.
- ChatRoute.ExtractFrom: its own contract only says a count comes from a match; which match decides is stated by ChatRoute.ExtractStep and ChatRoute.ExtractDurationSteps.
- The general fallback runs after the multiple-section rewrite (src/lib/queryDetection.ts:134-145), so a confidence below 0.1 ends as general even when a change word occurs; the model follows the code's order (QueryDetection.FallbackOverridesMultiSection).
