/** Intent detection for follow-up chat messages: which part of an existing trip plan a
    message is about, how sure the detector is, and which loading message to show while the
    affected sections refresh.

    `confidence` is `matchCount / words.length`. The model keeps its two integers, `score`
    and `wordCount`, so that every comparison the detector makes is exact:
    `confidence < t / 10` is `10 * score < t * wordCount`. */
module QueryDetection {
  import opened Wrappers
  import opened JsText
  import opened Seqs

  datatype Intent = Hotel | Flight | Activity | Budget | Date | General | Multiple

  /** The part of the results page a query is aimed at. */
  datatype Section = HotelsSection | FlightsSection | ActivitiesSection | MultipleSection | GeneralSection

  datatype QueryPattern = QueryPattern(intent: Intent, keywords: seq<string>, loadingMessages: seq<string>)

  /** The five categories, in the order the detector visits them. Keywords are matched as
      substrings of the lower-cased query; each category has five loading messages. */
  const QueryPatterns: seq<QueryPattern> := [
    QueryPattern(Hotel,
      ["hotel", "hotels", "accommodation", "stay", "room", "lodge", "resort", "inn", "cheaper hotel",
       "different hotel", "luxury hotel", "budget hotel", "better hotel", "another hotel",
       "hotel options", "place to stay"],
      ["🏨 Searching for better hotels...", "🏨 Finding cheaper hotel options...",
       "🏨 Looking for luxury accommodations...", "🏨 Updating hotel recommendations...",
       "🏨 Finding alternative hotels..."]),
    QueryPattern(Flight,
      ["flight", "flights", "plane", "airline", "fly", "departure", "arrival", "cheaper flight",
       "different flight", "direct flight", "connecting flight", "earlier flight", "later flight",
       "flight options", "alternative flight"],
      ["✈️ Looking for alternative flights...", "✈️ Searching for cheaper flights...",
       "✈️ Finding direct flight options...", "✈️ Updating flight recommendations...",
       "✈️ Checking different airlines..."]),
    QueryPattern(Activity,
      ["activity", "activities", "things to do", "attractions", "tour", "tours", "museum",
       "restaurant", "food", "dining", "sightseeing", "entertainment", "add activities",
       "more activities", "different activities", "itinerary", "schedule", "plan", "visit",
       "explore", "experience"],
      ["🎯 Finding new activities...", "🎯 Adding more experiences...", "🎯 Updating your itinerary...",
       "🎯 Discovering local attractions...", "🎯 Planning better activities..."]),
    QueryPattern(Budget,
      ["budget", "cheaper", "expensive", "cost", "price", "affordable", "money", "save money",
       "reduce cost", "lower price", "budget options", "economical"],
      ["💰 Checking budget options...", "💰 Finding cheaper alternatives...", "💰 Optimizing your budget...",
       "💰 Looking for savings...", "💰 Updating cost estimates..."]),
    QueryPattern(Date,
      ["date", "dates", "time", "when", "schedule", "calendar", "day", "week", "change date",
       "different date", "reschedule", "move trip", "postpone"],
      ["📅 Updating travel dates...", "📅 Checking new availability...", "📅 Rescheduling your trip...",
       "📅 Finding options for new dates...", "📅 Adjusting your schedule..."])
  ]

  /** Every category has five loading messages, so any index `Math.random` yields is valid. */
  predicate FiveMessagesEach(patterns: seq<QueryPattern>) {
    forall c :: 0 <= c < |patterns| ==> |patterns[c].loadingMessages| == 5
  }

  lemma FiveLoadingMessages()
    ensures FiveMessagesEach(QueryPatterns)
  {
    forall c | 0 <= c < |QueryPatterns| ensures |QueryPatterns[c].loadingMessages| == 5 {
      if c == 0 {
      } else if c == 1 {
      } else if c == 2 {
      } else if c == 3 {
      }
    }
  }

  const ProcessingMessage: string := "🔍 Processing your request..."
  const UpdatingPlanMessage: string := "🔄 Updating your trip plan..."
  const UnderstandingMessage: string := "🤔 Understanding your request..."

  /** Words that signal a change to several sections at once. */
  const MultiSectionKeywords: seq<string> := ["change", "update", "modify", "adjust", "new"]

  const FollowUpIndicators: seq<string> := [
    "find", "get", "show", "change", "update", "modify", "adjust",
    "different", "another", "alternative", "better", "cheaper",
    "add", "remove", "replace", "switch", "upgrade"
  ]

  /** The result of the analysis; its confidence is `score / wordCount`. */
  datatype QueryAnalysis = QueryAnalysis(
    intent: Intent,
    score: nat,
    wordCount: nat,
    targetSection: Section,
    loadingMessage: string,
    keywords: seq<string>)

  function Confidence(a: QueryAnalysis): real
    requires a.wordCount > 0
  {
    a.score as real / a.wordCount as real
  }

  /** `a.confidence < tenths / 10`, decided on integers. */
  predicate ConfidenceBelow(a: QueryAnalysis, tenths: nat) {
    10 * a.score < tenths * a.wordCount
  }

  /** The integer test is the comparison of the real-valued confidence with the threshold. */
  lemma ConfidenceBelowExact(a: QueryAnalysis, tenths: nat)
    requires a.wordCount > 0
    ensures ConfidenceBelow(a, tenths) <==> Confidence(a) < tenths as real / 10.0
  {
    var c := Confidence(a);
    var w := a.wordCount as real;
    assert c * w == a.score as real;
    if ConfidenceBelow(a, tenths) {
      assert (tenths as real / 10.0) * w == tenths as real * w / 10.0;
      assert 10.0 * (c * w) < tenths as real * w;
    } else {
      assert 10.0 * (c * w) >= tenths as real * w;
    }
  }

  // ---------------------------------------------------------------------------
  // Keyword scores

  /** Number of space characters in `s`. */
  function SpaceCount(s: string): nat {
    if s == [] then 0 else SpaceCount(s[..|s| - 1]) + (if s[|s| - 1] == ' ' then 1 else 0)
  }

  /** `keyword.split(' ').length`: a phrase of n words weighs n. */
  function KeywordWeight(k: string): nat {
    1 + SpaceCount(k)
  }

  /** Total weight of a list of matched keywords. */
  function WeightSum(ks: seq<string>): (w: nat)
    ensures w >= |ks|
  {
    if ks == [] then 0 else WeightSum(ks[..|ks| - 1]) + KeywordWeight(ks[|ks| - 1])
  }

  /** The keywords of a category that occur in the query, in the category's order. */
  function MatchedKeywords(lowerQuery: string, keywords: seq<string>): seq<string> {
    Filter(keywords, ContainedIn(lowerQuery))
  }

  /** `matchCount` for one category. */
  function MatchCount(lowerQuery: string, keywords: seq<string>): nat {
    WeightSum(MatchedKeywords(lowerQuery, keywords))
  }

  lemma {:induction false} SpaceCountConcat(a: string, b: string)
    ensures SpaceCount(a + b) == SpaceCount(a) + SpaceCount(b)
    decreases |b|
  {
    if b == [] {
      assert a + b == a;
    } else {
      var b' := b[..|b| - 1];
      assert (a + b)[..|a + b| - 1] == a + b';
      SpaceCountConcat(a, b');
    }
  }

  lemma {:induction false} WeightSumConcat(a: seq<string>, b: seq<string>)
    ensures WeightSum(a + b) == WeightSum(a) + WeightSum(b)
    decreases |b|
  {
    if b == [] {
      assert a + b == a;
    } else {
      var b' := b[..|b| - 1];
      assert (a + b)[..|a + b| - 1] == a + b';
      WeightSumConcat(a, b');
    }
  }

  /** The score of a keyword list is the sum of the scores of its parts. */
  lemma MatchCountConcat(lowerQuery: string, a: seq<string>, b: seq<string>)
    ensures MatchCount(lowerQuery, a + b) == MatchCount(lowerQuery, a) + MatchCount(lowerQuery, b)
  {
    FilterConcat(a, b, ContainedIn(lowerQuery));
    WeightSumConcat(MatchedKeywords(lowerQuery, a), MatchedKeywords(lowerQuery, b));
  }

  /** A phrase of two words joined by a space weighs at least 2. */
  lemma PhraseWeight(u: string, v: string)
    ensures KeywordWeight(u + " " + v) >= 2
  {
    SpaceCountConcat(u + " ", v);
    assert (u + " ")[..|u|] == u;
  }

  lemma MatchCountSingle(lowerQuery: string, k: string)
    requires Contains(lowerQuery, k)
    ensures MatchCount(lowerQuery, [k]) == KeywordWeight(k)
  {
    assert MatchedKeywords(lowerQuery, [k]) == [k];
    assert [k][..0] == [];
    assert WeightSum([k]) == WeightSum([]) + KeywordWeight(k);
  }

  /** Two keywords of a category that both occur add up their weights to its score. */
  lemma TwoMatchesScore(lowerQuery: string, ks: seq<string>, i: nat, j: nat)
    requires i < j < |ks|
    requires Contains(lowerQuery, ks[i]) && Contains(lowerQuery, ks[j])
    ensures MatchCount(lowerQuery, ks) >= KeywordWeight(ks[i]) + KeywordWeight(ks[j])
  {
    var a, b, c := ks[..i], ks[i + 1..j], ks[j + 1..];
    assert ks == a + [ks[i]] + b + [ks[j]] + c;
    MatchCountConcat(lowerQuery, a + [ks[i]] + b + [ks[j]], c);
    MatchCountConcat(lowerQuery, a + [ks[i]] + b, [ks[j]]);
    MatchCountConcat(lowerQuery, a + [ks[i]], b);
    MatchCountConcat(lowerQuery, a, [ks[i]]);
    MatchCountSingle(lowerQuery, ks[i]);
    MatchCountSingle(lowerQuery, ks[j]);
  }

  /** A category scores zero exactly when none of its keywords occurs in the query. */
  lemma MatchCountZero(lowerQuery: string, keywords: seq<string>)
    ensures MatchCount(lowerQuery, keywords) == 0
        <==> forall i :: 0 <= i < |keywords| ==> !Contains(lowerQuery, keywords[i])
  {
    var m := MatchedKeywords(lowerQuery, keywords);
    if m != [] {
      assert ContainedIn(lowerQuery)(m[0]);
    }
  }

  /** The scores of the categories, in visiting order. */
  function Scores(patterns: seq<QueryPattern>, lowerQuery: string): (s: seq<nat>)
    ensures |s| == |patterns|
    ensures forall c :: 0 <= c < |s| ==> s[c] == MatchCount(lowerQuery, patterns[c].keywords)
  {
    seq(|patterns|, c requires 0 <= c < |patterns| => MatchCount(lowerQuery, patterns[c].keywords))
  }

  // ---------------------------------------------------------------------------
  // Choosing the best category

  /** The largest element of `s`, or 0 for the empty sequence. */
  function MaxOf(s: seq<nat>): (m: nat)
    ensures forall i :: 0 <= i < |s| ==> s[i] <= m
    ensures s == [] ==> m == 0
    ensures s != [] ==> exists i :: 0 <= i < |s| && s[i] == m
  {
    if s == [] then 0
    else
      var p := s[..|s| - 1];
      var m := MaxOf(p);
      assert forall i :: 0 <= i < |p| ==> s[i] == p[i];
      if s[|s| - 1] > m then s[|s| - 1] else m
  }

  /** Index `c` holds the largest score, and every earlier index a strictly smaller one. */
  predicate IsFirstMax(s: seq<nat>, c: nat) {
    && c < |s|
    && (forall i :: 0 <= i < |s| ==> s[i] <= s[c])
    && (forall i :: 0 <= i < c ==> s[i] < s[c])
  }

  lemma FirstMaxUnique(s: seq<nat>, c: nat, d: nat)
    requires IsFirstMax(s, c) && IsFirstMax(s, d)
    ensures c == d
  {
    assert s[c] == s[d];
  }

  function HasScore(scores: seq<nat>, m: nat): nat -> bool {
    (i: nat) => i < |scores| && scores[i] == m
  }

  /** The category the detector keeps: the first one whose score is the largest, and none
      when every score is zero (a category replaces the current best only when it scores
      strictly higher). */
  function Winner(scores: seq<nat>): (w: Option<nat>)
    ensures w.None? <==> forall i :: 0 <= i < |scores| ==> scores[i] == 0
    ensures w.Some? ==> IsFirstMax(scores, w.value) && scores[w.value] > 0
  {
    var m := MaxOf(scores);
    if m == 0 then None
    else
      var w := FirstIndex(HasScore(scores, m), 0, |scores|);
      assert w.Some? by {
        var j :| 0 <= j < |scores| && scores[j] == m;
        assert HasScore(scores, m)(j);
      }
      assert IsFirstMax(scores, w.value) by {
        forall k | 0 <= k < w.value ensures scores[k] < scores[w.value] {
          assert !HasScore(scores, m)(k);
        }
      }
      w
  }

  /** Seeing one more score: the new category wins only if it beats every earlier one. */
  lemma WinnerSnoc(s: seq<nat>, x: nat)
    ensures Winner(s + [x]) == if x > MaxOf(s) then Some(|s|) else Winner(s)
  {
    var t := s + [x];
    var w := Winner(t);
    if x > MaxOf(s) {
      forall i | 0 <= i < |s| ensures t[i] < t[|s|] {
        assert t[i] == s[i];
      }
      assert IsFirstMax(t, |s|);
      assert t[|s|] != 0;
      FirstMaxUnique(t, w.value, |s|);
    } else {
      match Winner(s)
      case None =>
        forall i | 0 <= i < |t| ensures t[i] == 0 {
          if i < |s| {
            assert t[i] == s[i];
          }
        }
      case Some(c) =>
        assert s[c] >= x;
        forall i | 0 <= i < |t| ensures t[i] <= t[c] {
          if i < |s| {
            assert t[i] == s[i];
          }
        }
        forall i | 0 <= i < c ensures t[i] < t[c] {
          assert t[i] == s[i];
        }
        assert IsFirstMax(t, c);
        assert t[c] != 0;
        FirstMaxUnique(t, w.value, c);
    }
  }

  /** The best score is the score of the winner, or zero when there is none. */
  lemma WinnerHoldsMax(s: seq<nat>)
    ensures MaxOf(s) == match Winner(s) case None => 0 case Some(c) => s[c]
  {
  }

  // ---------------------------------------------------------------------------
  // Building the analysis

  /** `getTargetSection`. */
  function TargetSection(intent: Intent): (s: Section)
    ensures intent == Hotel <==> s == HotelsSection
    ensures intent == Flight <==> s == FlightsSection
    ensures intent == Activity <==> s == ActivitiesSection
    ensures intent == Budget || intent == Date <==> s == MultipleSection
  {
    match intent
    case Hotel => HotelsSection
    case Flight => FlightsSection
    case Activity => ActivitiesSection
    case Date => MultipleSection
    case Budget => MultipleSection
    case _ => GeneralSection
  }

  /** The message mentions `a` or `b`. */
  function MentionsEither(a: string, b: string): string -> bool {
    m => Contains(m, a) || Contains(m, b)
  }

  /** Some message of the pool mentions `a` or `b`. */
  predicate SomeMentions(messages: seq<string>, a: string, b: string) {
    exists i :: 0 <= i < |messages| && MentionsEither(a, b)(messages[i])
  }

  /** `m` is the first message of the pool that mentions `a` or `b`. */
  predicate FirstMentioning(messages: seq<string>, m: string, a: string, b: string) {
    exists i :: 0 <= i < |messages| && messages[i] == m && MentionsEither(a, b)(messages[i])
                && forall j :: 0 <= j < i ==> !MentionsEither(a, b)(messages[j])
  }

  /** The query asks for something cheap, and the pool has a cheaper/budget message. */
  predicate BudgetTier(messages: seq<string>, query: string) {
    (Contains(query, "cheap") || Contains(query, "budget")) && SomeMentions(messages, "cheaper", "budget")
  }

  /** The query asks for something luxurious, and the pool has a luxury/better message. */
  predicate LuxuryTier(messages: seq<string>, query: string) {
    (Contains(query, "luxury") || Contains(query, "premium")) && SomeMentions(messages, "luxury", "better")
  }

  /** The query asks for something different, and the pool has an alternative/different
      message. */
  predicate AlternativeTier(messages: seq<string>, query: string) {
    (Contains(query, "different") || Contains(query, "alternative"))
    && SomeMentions(messages, "alternative", "different")
  }

  /** `getRandomLoadingMessage`: the tiers are tried in the order budget, luxury,
      alternative; the first tier whose trigger word occurs in the query and whose pool has
      a matching message gives the first such message; when no tier applies, the message at
      the random index `pick`. */
  function LoadingMessage(messages: seq<string>, query: string, pick: nat): (m: string)
    requires pick < |messages|
    ensures m in messages
    ensures BudgetTier(messages, query) ==> FirstMentioning(messages, m, "cheaper", "budget")
    ensures !BudgetTier(messages, query) && LuxuryTier(messages, query)
            ==> FirstMentioning(messages, m, "luxury", "better")
    ensures !BudgetTier(messages, query) && !LuxuryTier(messages, query) && AlternativeTier(messages, query)
            ==> FirstMentioning(messages, m, "alternative", "different")
    ensures !BudgetTier(messages, query) && !LuxuryTier(messages, query) && !AlternativeTier(messages, query)
            ==> m == messages[pick]
  {
    var budget := Find(messages, MentionsEither("cheaper", "budget"));
    var luxury := Find(messages, MentionsEither("luxury", "better"));
    var alternative := Find(messages, MentionsEither("alternative", "different"));
    if (Contains(query, "cheap") || Contains(query, "budget")) && budget.Some? then budget.value
    else if (Contains(query, "luxury") || Contains(query, "premium")) && luxury.Some? then luxury.value
    else if (Contains(query, "different") || Contains(query, "alternative")) && alternative.Some? then alternative.value
    else messages[pick]
  }

  /** The analysis before any category has matched. */
  function Initial(wordCount: nat): QueryAnalysis {
    QueryAnalysis(General, 0, wordCount, GeneralSection, ProcessingMessage, [])
  }

  /** The analysis that category `c` produces when it becomes the best match. */
  function Candidate(patterns: seq<QueryPattern>, lowerQuery: string, wordCount: nat, c: nat, pick: nat): QueryAnalysis
    requires c < |patterns| && pick < |patterns[c].loadingMessages|
  {
    var p := patterns[c];
    QueryAnalysis(p.intent, MatchCount(lowerQuery, p.keywords), wordCount, TargetSection(p.intent),
                  LoadingMessage(p.loadingMessages, lowerQuery, pick), MatchedKeywords(lowerQuery, p.keywords))
  }

  /** The best match after visiting the first `n` categories. */
  function BestOf(patterns: seq<QueryPattern>, lowerQuery: string, wordCount: nat, pick: nat, n: nat): QueryAnalysis
    requires n <= |patterns| && FiveMessagesEach(patterns) && pick < 5
  {
    match Winner(Scores(patterns, lowerQuery)[..n])
    case None => Initial(wordCount)
    case Some(c) => Candidate(patterns, lowerQuery, wordCount, c, pick)
  }

  /** Visiting category `c`: it becomes the best match exactly when it scores strictly
      higher than the best so far. */
  lemma BestOfStep(patterns: seq<QueryPattern>, lowerQuery: string, wordCount: nat, pick: nat, c: nat)
    requires c < |patterns| && FiveMessagesEach(patterns) && pick < 5
    ensures BestOf(patterns, lowerQuery, wordCount, pick, c + 1)
         == if Scores(patterns, lowerQuery)[c] > BestOf(patterns, lowerQuery, wordCount, pick, c).score
            then Candidate(patterns, lowerQuery, wordCount, c, pick)
            else BestOf(patterns, lowerQuery, wordCount, pick, c)
  {
    var scores := Scores(patterns, lowerQuery);
    assert scores[..c + 1] == scores[..c] + [scores[c]];
    WinnerSnoc(scores[..c], scores[c]);
    WinnerHoldsMax(scores[..c]);
  }

  /** Some multi-section word occurs in the query. */
  predicate HasMultiSectionIntent(lowerQuery: string) {
    Any(MultiSectionKeywords, ContainedIn(lowerQuery))
  }

  /** A weak match on a query that asks for a change becomes a change to several sections. */
  function MultiSectionPass(lowerQuery: string, a: QueryAnalysis): QueryAnalysis {
    if HasMultiSectionIntent(lowerQuery) && ConfidenceBelow(a, 3) then
      a.(intent := Multiple, targetSection := MultipleSection, loadingMessage := UpdatingPlanMessage)
    else a
  }

  /** A very weak match falls back to the general intent. */
  function LowConfidencePass(a: QueryAnalysis): QueryAnalysis {
    if ConfidenceBelow(a, 1) then
      a.(intent := General, targetSection := GeneralSection, loadingMessage := UnderstandingMessage)
    else a
  }

  /** `analyzeQuery` over a table of categories, stated as what it computes; `pick` stands
      for the random index into a category's loading messages. */
  function AnalyzeWith(patterns: seq<QueryPattern>, query: string, pick: nat): QueryAnalysis
    requires FiveMessagesEach(patterns) && pick < 5
  {
    var lowerQuery := ToLower(query);
    var wordCount := |SplitOnWhitespace(lowerQuery)|;
    LowConfidencePass(MultiSectionPass(lowerQuery, BestOf(patterns, lowerQuery, wordCount, pick, |patterns|)))
  }

  /** `analyzeQuery` over the detector's own five categories. */
  function Analyze(query: string, pick: nat): QueryAnalysis
    requires pick < 5
  {
    FiveLoadingMessages();
    AnalyzeWith(QueryPatterns, query, pick)
  }

  /** `analyzeQuery` as the source runs it: one pass over the categories, one inner pass over
      each category's keywords, then the two corrections. The table of categories is a
      parameter; the detector passes `QueryPatterns`. */
  method AnalyzeQuery(patterns: seq<QueryPattern>, query: string, pick: nat) returns (bestMatch: QueryAnalysis)
    requires FiveMessagesEach(patterns) && pick < 5
    ensures bestMatch == AnalyzeWith(patterns, query, pick)
  {
    var lowerQuery := ToLower(query);
    var words := SplitOnWhitespace(lowerQuery);
    bestMatch := Initial(|words|);
    for c := 0 to |patterns|
      invariant bestMatch == BestOf(patterns, lowerQuery, |words|, pick, c)
    {
      var pattern := patterns[c];
      var matchCount, matchedKeywords := CountMatches(lowerQuery, pattern.keywords);
      BestOfStep(patterns, lowerQuery, |words|, pick, c);
      // Both confidences share the denominator `words.length`.
      if matchCount > bestMatch.score {
        bestMatch := QueryAnalysis(pattern.intent, matchCount, |words|, TargetSection(pattern.intent),
                                   LoadingMessage(pattern.loadingMessages, lowerQuery, pick), matchedKeywords);
      }
    }

    ghost var best := bestMatch;
    var hasMultiSectionIntent := HasMultiSectionIntent(lowerQuery);
    if hasMultiSectionIntent && 10 * bestMatch.score < 3 * bestMatch.wordCount {
      bestMatch := bestMatch.(intent := Multiple, targetSection := MultipleSection, loadingMessage := UpdatingPlanMessage);
    }
    assert bestMatch == MultiSectionPass(lowerQuery, best);
    if 10 * bestMatch.score < bestMatch.wordCount {
      bestMatch := bestMatch.(intent := General, targetSection := GeneralSection, loadingMessage := UnderstandingMessage);
    }
    assert bestMatch == LowConfidencePass(MultiSectionPass(lowerQuery, best));
  }

  /** The inner loop of `analyzeQuery`: the keywords of one category that occur in the
      query, and their total weight. */
  method CountMatches(lowerQuery: string, keywords: seq<string>) returns (matchCount: nat, matchedKeywords: seq<string>)
    ensures matchedKeywords == MatchedKeywords(lowerQuery, keywords)
    ensures matchCount == MatchCount(lowerQuery, keywords)
  {
    matchCount := 0;
    matchedKeywords := [];
    for j := 0 to |keywords|
      invariant matchedKeywords == MatchedKeywords(lowerQuery, keywords[..j])
      invariant matchCount == WeightSum(matchedKeywords)
    {
      var keyword := keywords[j];
      MatchedStep(lowerQuery, keywords, j);
      if Contains(lowerQuery, keyword) {
        WeightSumSnoc(matchedKeywords, keyword);
        matchCount := matchCount + KeywordWeight(keyword);
        matchedKeywords := matchedKeywords + [keyword];
      }
    }
    assert keywords[..|keywords|] == keywords;
  }

  /** One more keyword visited: it joins the matched keywords exactly when it occurs. */
  lemma MatchedStep(lowerQuery: string, keywords: seq<string>, j: nat)
    requires j < |keywords|
    ensures MatchedKeywords(lowerQuery, keywords[..j + 1])
         == MatchedKeywords(lowerQuery, keywords[..j])
            + (if Contains(lowerQuery, keywords[j]) then [keywords[j]] else [])
  {
    assert keywords[..j + 1] == keywords[..j] + [keywords[j]];
    FilterSnoc(keywords[..j], keywords[j], ContainedIn(lowerQuery));
  }

  /** A keyword matched last adds its weight to the total. */
  lemma WeightSumSnoc(ks: seq<string>, k: string)
    ensures WeightSum(ks + [k]) == WeightSum(ks) + KeywordWeight(k)
  {
    assert (ks + [k])[..|ks|] == ks;
  }

  // ---------------------------------------------------------------------------
  // Properties of the analysis

  /** The reported score is the best category score, the reported keywords are the winner's
      matched keywords (none when nothing matched), and the score is their total weight;
      `words.length` is one more than the number of whitespace runs in the query. */
  lemma AnalyzeReportsWinner(patterns: seq<QueryPattern>, query: string, pick: nat)
    requires FiveMessagesEach(patterns) && pick < 5
    ensures var r := AnalyzeWith(patterns, query, pick);
            var lowerQuery := ToLower(query);
            && r.wordCount == 1 + WhitespaceRuns(lowerQuery)
            && r.score == MaxOf(Scores(patterns, lowerQuery))
            && r.score == WeightSum(r.keywords)
            && r.keywords == match Winner(Scores(patterns, lowerQuery))
                             case None => []
                             case Some(c) => MatchedKeywords(lowerQuery, patterns[c].keywords)
  {
    var lowerQuery := ToLower(query);
    SplitCountsRuns(lowerQuery);
    assert Scores(patterns, lowerQuery)[..|patterns|] == Scores(patterns, lowerQuery);
    WinnerHoldsMax(Scores(patterns, lowerQuery));
  }

  /** The three possible outcomes: below 0.1 the query is general; otherwise, below 0.3 with a
      multi-section word it is a multi-section update; otherwise it is the winning category,
      with that category's section and one of its loading messages. */
  lemma AnalyzeOutcome(patterns: seq<QueryPattern>, query: string, pick: nat)
    requires FiveMessagesEach(patterns) && pick < 5
    ensures var r := AnalyzeWith(patterns, query, pick);
            var lowerQuery := ToLower(query);
            && (ConfidenceBelow(r, 1) ==>
                  r.intent == General && r.targetSection == GeneralSection && r.loadingMessage == UnderstandingMessage)
            && (!ConfidenceBelow(r, 1) && HasMultiSectionIntent(lowerQuery) && ConfidenceBelow(r, 3) ==>
                  r.intent == Multiple && r.targetSection == MultipleSection && r.loadingMessage == UpdatingPlanMessage)
            && (!ConfidenceBelow(r, 1) && !(HasMultiSectionIntent(lowerQuery) && ConfidenceBelow(r, 3)) ==>
                  exists c :: 0 <= c < |patterns| && Winner(Scores(patterns, lowerQuery)) == Some(c)
                              && r.intent == patterns[c].intent
                              && r.targetSection == TargetSection(r.intent)
                              && r.loadingMessage in patterns[c].loadingMessages)
  {
    var lowerQuery := ToLower(query);
    BestOfAll(patterns, lowerQuery, |SplitOnWhitespace(lowerQuery)|, pick);
  }

  /** After the whole table: the initial analysis when nothing matched, else the winner's. */
  lemma BestOfAll(patterns: seq<QueryPattern>, lowerQuery: string, wordCount: nat, pick: nat)
    requires FiveMessagesEach(patterns) && pick < 5
    ensures match Winner(Scores(patterns, lowerQuery))
            case None => BestOf(patterns, lowerQuery, wordCount, pick, |patterns|) == Initial(wordCount)
            case Some(c) => c < |patterns|
                            && BestOf(patterns, lowerQuery, wordCount, pick, |patterns|) == Candidate(patterns, lowerQuery, wordCount, c, pick)
  {
    var scores := Scores(patterns, lowerQuery);
    assert scores[..|patterns|] == scores;
  }

  /** No category offers the placeholder message: each message opens with its category's
      emoji. */
  lemma NoCategoryOffersPlaceholder(c: nat, m: string)
    requires c < |QueryPatterns| && m in QueryPatterns[c].loadingMessages
    ensures m != ProcessingMessage
  {
    var ms := QueryPatterns[c].loadingMessages;
    var i :| 0 <= i < |ms| && ms[i] == m;
    FiveLoadingMessages();
    var emoji := if c == 0 then '🏨' else if c == 1 then '✈' else if c == 2 then '🎯' else if c == 3 then '💰' else '📅';
    assert m[0] == emoji;
  }

  /** The detector never hands back its placeholder message. */
  lemma NeverProcessingMessage(query: string, pick: nat)
    requires pick < 5
    ensures Analyze(query, pick).loadingMessage != ProcessingMessage
  {
    var r := Analyze(query, pick);
    FiveLoadingMessages();
    AnalyzeOutcome(QueryPatterns, query, pick);
    if !ConfidenceBelow(r, 1) && !(HasMultiSectionIntent(ToLower(query)) && ConfidenceBelow(r, 3)) {
      var c :| 0 <= c < |QueryPatterns| && r.loadingMessage in QueryPatterns[c].loadingMessages;
      NoCategoryOffersPlaceholder(c, r.loadingMessage);
    }
  }

  /** A query that contains no keyword of any category is general, whatever else it says. */
  lemma NoKeywordIsGeneral(patterns: seq<QueryPattern>, query: string, pick: nat)
    requires FiveMessagesEach(patterns) && pick < 5
    requires forall c, i :: 0 <= c < |patterns| && 0 <= i < |patterns[c].keywords|
                            ==> !Contains(ToLower(query), patterns[c].keywords[i])
    ensures AnalyzeWith(patterns, query, pick).intent == General
    ensures AnalyzeWith(patterns, query, pick).keywords == []
  {
    var lowerQuery := ToLower(query);
    forall c | 0 <= c < |patterns| ensures Scores(patterns, lowerQuery)[c] == 0 {
      MatchCountZero(lowerQuery, patterns[c].keywords);
    }
    AnalyzeReportsWinner(patterns, query, pick);
    AnalyzeOutcome(patterns, query, pick);
  }

  /** Below 0.1 the general fallback has the last word, even when the query contains a
      multi-section word: the two corrections run in this order. */
  lemma FallbackOverridesMultiSection(patterns: seq<QueryPattern>, query: string, pick: nat)
    requires FiveMessagesEach(patterns) && pick < 5
    requires HasMultiSectionIntent(ToLower(query))
    requires ConfidenceBelow(AnalyzeWith(patterns, query, pick), 1)
    ensures AnalyzeWith(patterns, query, pick).intent == General
    ensures AnalyzeWith(patterns, query, pick).targetSection == GeneralSection
  {
    AnalyzeOutcome(patterns, query, pick);
  }

  lemma HotelKeywords()
    ensures |QueryPatterns[0].keywords| > 8
    ensures QueryPatterns[0].keywords[0] == "hotel"
    ensures QueryPatterns[0].keywords[8] == "cheaper hotel" == "cheaper" + " " + "hotel"
  {
  }

  /** Multi-word phrases count once per word, so the confidence can exceed 1: a two-word
      query containing "cheaper hotel" matches "hotel" and "cheaper hotel" for a score of at
      least 3. */
  lemma ConfidenceCanExceedOne(query: string, pick: nat)
    requires pick < 5
    requires Contains(ToLower(query), "cheaper hotel")
    requires |SplitOnWhitespace(ToLower(query))| == 2
    ensures Analyze(query, pick).score > Analyze(query, pick).wordCount
  {
    CheaperHotelScore(ToLower(query));
    FiveLoadingMessages();
    ScoreAboveWords(QueryPatterns, query, pick);
  }

  /** When the first category alone outscores the word count, so does the analysis. */
  lemma ScoreAboveWords(patterns: seq<QueryPattern>, query: string, pick: nat)
    requires FiveMessagesEach(patterns) && pick < 5 && |patterns| > 0
    requires Scores(patterns, ToLower(query))[0] > |SplitOnWhitespace(ToLower(query))|
    ensures AnalyzeWith(patterns, query, pick).score > AnalyzeWith(patterns, query, pick).wordCount
  {
    SplitCountsRuns(ToLower(query));
    AnalyzeReportsWinner(patterns, query, pick);
  }

  /** "cheaper hotel" gives the hotel category 1 for "hotel" and 2 for the phrase. */
  lemma CheaperHotelScore(lowerQuery: string)
    requires Contains(lowerQuery, "cheaper hotel")
    ensures Scores(QueryPatterns, lowerQuery)[0] >= 3
  {
    var i :| 0 <= i <= |lowerQuery| && OccursAt(lowerQuery, "cheaper hotel", i);
    assert "cheaper hotel"[8..] == "hotel";
    SuffixOccurs(lowerQuery, "cheaper hotel", 8, i);
    HotelKeywords();
    TwoMatchesScore(lowerQuery, QueryPatterns[0].keywords, 0, 8);
    PhraseWeight("cheaper", "hotel");
  }

  /** Where a phrase occurs, so does each of its suffixes. */
  lemma SuffixOccurs(s: string, p: string, k: nat, i: nat)
    requires k <= |p| && OccursAt(s, p, i)
    ensures Contains(s, p[k..])
  {
    assert s[i + k..i + |p|] == p[k..];
    assert OccursAt(s, p[k..], i + k);
  }

  // ---------------------------------------------------------------------------
  // Follow-up detection and per-section loading state

  /** `isFollowUpQuery`: with a trip already planned, a message is a follow-up exactly when
      it contains one of the follow-up indicators, ignoring case. */
  function IsFollowUpQuery(query: string, hasExistingTripData: bool): (r: bool)
    ensures r <==> hasExistingTripData
                   && exists i :: 0 <= i < |FollowUpIndicators| && Contains(ToLower(query), FollowUpIndicators[i])
  {
    hasExistingTripData && Any(FollowUpIndicators, ContainedIn(ToLower(query)))
  }

  datatype SectionLoadingState = SectionLoadingState(section: Section, isLoading: bool, message: string)

  /** `createSectionLoadingState`: a multi-section update shows three fixed messages, a
      general query shows none, and a single section shows the analysis message. */
  method CreateSectionLoadingState(targetSection: Section, loadingMessage: string)
    returns (states: seq<SectionLoadingState>)
    ensures targetSection == MultipleSection ==> states == [
      SectionLoadingState(HotelsSection, true, "🏨 Updating hotels..."),
      SectionLoadingState(FlightsSection, true, "✈️ Updating flights..."),
      SectionLoadingState(ActivitiesSection, true, "🎯 Updating activities...")]
    ensures targetSection == GeneralSection ==> states == []
    ensures targetSection != MultipleSection && targetSection != GeneralSection
            ==> states == [SectionLoadingState(targetSection, true, loadingMessage)]
    ensures forall k :: 0 <= k < |states| ==>
              && states[k].isLoading
              && (states[k].section == HotelsSection || states[k].section == FlightsSection
                  || states[k].section == ActivitiesSection)
  {
    if targetSection == MultipleSection {
      states := [
        SectionLoadingState(HotelsSection, true, "🏨 Updating hotels..."),
        SectionLoadingState(FlightsSection, true, "✈️ Updating flights..."),
        SectionLoadingState(ActivitiesSection, true, "🎯 Updating activities...")];
    } else if targetSection != GeneralSection {
      states := [SectionLoadingState(targetSection, true, loadingMessage)];
    } else {
      states := [];
    }
  }
}
