/** The chat endpoint (`POST /api/chat`): it checks the incoming message, reads a trip
    length out of it, adds a note about that length to the system prompt, and assembles
    the message list that is sent to the language model. The call to the model and the
    streaming of its answer are outside this module. */
module ChatRoute {
  import opened Wrappers
  import opened JsText
  import opened Seqs

  // ---------------------------------------------------------------------------
  // Request and response

  /** A field of the JSON body where the handler expects a string: absent (`undefined` or
      `null`), a string, or a value of some other type. */
  datatype JsonField = Absent | Text(text: string) | NotText

  /** One element of `conversationHistory`. An element that is `null` or not an object
      behaves as one whose fields are both absent. */
  datatype HistoryItem = HistoryItem(sender: JsonField, content: JsonField)

  /** The body of the request; a missing `conversationHistory` is the empty list. */
  datatype ChatRequest = ChatRequest(message: JsonField, conversationHistory: seq<HistoryItem>)

  datatype Role = System | User | Assistant

  datatype ChatMessage = ChatMessage(role: Role, content: string)

  /** What the handler answers: status 400, status 500, or the messages it sends to the
      model, whose answer it then streams back. */
  datatype ChatResponse =
    | BadRequest(error: string)
    | ServerError(error: string)
    | Completion(messages: seq<ChatMessage>)

  const InvalidMessageError := "Valid message content is required"
  const MissingKeyError := "OpenAI API key not configured"

  /** The guard on `message`: a string with something other than whitespace in it. */
  predicate ValidMessage(message: JsonField) {
    message.Text? && Trim(message.text) != ""
  }

  /** A message is accepted exactly when it is a string holding a non-whitespace
      character. */
  lemma ValidMessageIff(message: JsonField)
    ensures ValidMessage(message)
            <==> message.Text? && exists i :: 0 <= i < |message.text| && !IsWhitespace(message.text[i])
  {
  }

  // ---------------------------------------------------------------------------
  // Trip length

  /** `day` in any letter case at index `i` of `s`. */
  predicate DayAt(s: string, i: nat) {
    i + 3 <= |s| && LowerChar(s[i]) == 'd' && LowerChar(s[i + 1]) == 'a' && LowerChar(s[i + 2]) == 'y'
  }

  /** `trip` in any letter case at index `i` of `s`. */
  predicate TripAt(s: string, i: nat) {
    && i + 4 <= |s| && LowerChar(s[i]) == 't' && LowerChar(s[i + 1]) == 'r'
    && LowerChar(s[i + 2]) == 'i' && LowerChar(s[i + 3]) == 'p'
  }

  /** Past an optional hyphen and the whitespace after it: the `-?\s*` of the third
      pattern, starting at `f`. */
  function AfterHyphen(s: string, f: nat): (g: nat)
    requires f <= |s|
    ensures f <= g <= |s|
  {
    if f < |s| && s[f] == '-' then SpacesEnd(s, f + 1) else f
  }

  /** The three patterns `extractDuration` tries, in this order. */
  datatype DurationPattern =
    | DaysPattern       // /(\d+)\s*days?/i
    | DayTripPattern    // /(\d+)\s*day\s*trip/i
    | HyphenDayPattern  // /(\d+)\s*-?\s*day/i

  const DurationPatterns := [DaysPattern, DayTripPattern, HyphenDayPattern]

  /** `pattern` matches at index `p` of `s`. Each part of each pattern is forced to take
      its maximal run: the part that follows a run of digits or of whitespace begins with
      a letter, a hyphen or nothing at all, so a shorter run would leave a digit or a space
      where that part needs something else. The optional `s` of `days?` never changes
      whether the pattern matches. */
  predicate MatchesAt(pattern: DurationPattern, s: string, p: nat) {
    p < |s| && IsDigit(s[p]) && RestMatchesAt(pattern, s, SpacesEnd(s, DigitsEnd(s, p)))
  }

  /** The part of `pattern` after `(\d+)\s*`, at index `f` of `s`. */
  predicate RestMatchesAt(pattern: DurationPattern, s: string, f: nat)
    requires f <= |s|
  {
    match pattern
    case DaysPattern => DayAt(s, f)
    case DayTripPattern => DayAt(s, f) && TripAt(s, SpacesEnd(s, f + 3))
    case HyphenDayPattern => DayAt(s, AfterHyphen(s, f))
  }

  function Matcher(pattern: DurationPattern, s: string): nat -> bool {
    (p: nat) => MatchesAt(pattern, s, p)
  }

  /** `s.match(pattern)`: where the leftmost match starts. */
  function FirstMatch(pattern: DurationPattern, s: string): (r: Option<nat>)
    ensures r.None? <==> forall p :: 0 <= p < |s| ==> !MatchesAt(pattern, s, p)
    ensures r.Some? ==> r.value < |s| && MatchesAt(pattern, s, r.value)
                        && forall p :: 0 <= p < r.value ==> !MatchesAt(pattern, s, p)
  {
    var start := FirstIndex(Matcher(pattern, s), 0, |s|);
    if start.None? then
      assert forall p :: 0 <= p < |s| ==> !MatchesAt(pattern, s, p) by {
        forall p | 0 <= p < |s| ensures !MatchesAt(pattern, s, p) {
          assert !Matcher(pattern, s)(p);
        }
      }
      None
    else
      assert Matcher(pattern, s)(start.value);
      assert forall p :: 0 <= p < start.value ==> !MatchesAt(pattern, s, p) by {
        forall p | 0 <= p < start.value ensures !MatchesAt(pattern, s, p) {
          assert !Matcher(pattern, s)(p);
        }
      }
      start
  }

  /** The loop of `extractDuration` over `patterns`: the number spelled by the captured
      digits of the first pattern that matches anywhere, or none. */
  function ExtractFrom(patterns: seq<DurationPattern>, text: string): (r: Option<nat>)
    ensures r.Some? ==> exists k, p :: 0 <= k < |patterns| && 0 <= p < |text| && MatchesAt(patterns[k], text, p)
  {
    if patterns == [] then None
    else
      var m := FirstMatch(patterns[0], text);
      if m.Some? then
        Some(NumberAt(text, m.value))
      else
        var r := ExtractFrom(patterns[1..], text);
        assert r.Some? ==> exists k, p :: 0 <= k < |patterns| && 0 <= p < |text| && MatchesAt(patterns[k], text, p) by {
          if r.Some? {
            var k, p :| 0 <= k < |patterns[1..]| && 0 <= p < |text| && MatchesAt(patterns[1..][k], text, p);
            assert MatchesAt(patterns[k + 1], text, p);
          }
        }
        r
  }

  /** Nothing is found only when no pattern matches anywhere. */
  lemma {:induction false} ExtractFromNone(patterns: seq<DurationPattern>, text: string)
    requires forall k, p :: 0 <= k < |patterns| && 0 <= p < |text| ==> !MatchesAt(patterns[k], text, p)
    ensures ExtractFrom(patterns, text) == None
  {
    if patterns != [] {
      assert forall k, p :: 0 <= k < |patterns[1..]| && 0 <= p < |text| ==> !MatchesAt(patterns[1..][k], text, p) by {
        forall k, p | 0 <= k < |patterns[1..]| && 0 <= p < |text| ensures !MatchesAt(patterns[1..][k], text, p) {
          assert patterns[1..][k] == patterns[k + 1];
        }
      }
      ExtractFromNone(patterns[1..], text);
    }
  }

  /** One turn of the loop: the first pattern decides when it matches, else the rest do. */
  lemma ExtractStep(patterns: seq<DurationPattern>, text: string)
    requires patterns != []
    ensures var m := FirstMatch(patterns[0], text);
            ExtractFrom(patterns, text) == if m.Some? then Some(NumberAt(text, m.value)) else ExtractFrom(patterns[1..], text)
  {
  }

  /** `extractDuration` tries its three patterns in turn. */
  lemma ExtractDurationSteps(text: string)
    ensures var d := FirstMatch(DaysPattern, text);
            var t := FirstMatch(DayTripPattern, text);
            var h := FirstMatch(HyphenDayPattern, text);
            ExtractDuration(text) == if d.Some? then Some(NumberAt(text, d.value))
                                     else if t.Some? then Some(NumberAt(text, t.value))
                                     else if h.Some? then Some(NumberAt(text, h.value))
                                     else None
  {
    var ps := DurationPatterns;
    assert ps[1..] == [DayTripPattern, HyphenDayPattern];
    assert ps[1..][1..] == [HyphenDayPattern];
    assert ps[1..][1..][1..] == [];
    ExtractStep(ps, text);
    ExtractStep(ps[1..], text);
    ExtractStep(ps[1..][1..], text);
  }

  /** `extractDuration`. */
  function ExtractDuration(text: string): Option<nat> {
    ExtractFrom(DurationPatterns, text)
  }

  /** Every match of the second pattern is a match of the first at the same place. */
  lemma DayTripIsDays(s: string, p: nat)
    ensures MatchesAt(DayTripPattern, s, p) ==> MatchesAt(DaysPattern, s, p)
  {
  }

  /** Every match of the first pattern is a match of the third at the same place: the
      letter `d` is not a hyphen. */
  lemma DaysIsHyphenDay(s: string, p: nat)
    ensures MatchesAt(DaysPattern, s, p) ==> MatchesAt(HyphenDayPattern, s, p)
  {
    if MatchesAt(DaysPattern, s, p) {
      var f := SpacesEnd(s, DigitsEnd(s, p));
      assert AfterHyphen(s, f) == f;
    }
  }

  /** The second pattern never decides the result: whatever it matches, the first pattern
      has matched already. */
  lemma SecondPatternNeverDecides(text: string)
    ensures ExtractDuration(text) == ExtractFrom([DaysPattern, HyphenDayPattern], text)
  {
    ExtractDurationSteps(text);
    var ps := [DaysPattern, HyphenDayPattern];
    assert ps[1..] == [HyphenDayPattern] && ps[1..][1..] == [];
    ExtractStep(ps, text);
    ExtractStep(ps[1..], text);
    if FirstMatch(DaysPattern, text).None? {
      forall p | 0 <= p < |text| ensures !MatchesAt(DayTripPattern, text, p) {
        DayTripIsDays(text, p);
      }
    }
  }

  /** No duration is found exactly when no digits are followed by `day`, with an optional
      hyphen between them. */
  lemma NoDurationIff(text: string)
    ensures ExtractDuration(text).None?
            <==> forall p :: 0 <= p < |text| ==> !MatchesAt(HyphenDayPattern, text, p)
  {
    ExtractDurationSteps(text);
    if forall p :: 0 <= p < |text| ==> !MatchesAt(HyphenDayPattern, text, p) {
      forall p | 0 <= p < |text| ensures !MatchesAt(DaysPattern, text, p) && !MatchesAt(DayTripPattern, text, p) {
        DayTripIsDays(text, p);
        DaysIsHyphenDay(text, p);
      }
    }
  }

  /** When the first match of a pattern sits at `p0`, right after a part of the text with
      no digits in it. */
  lemma FirstMatchAt(pattern: DurationPattern, s: string, p0: nat)
    requires MatchesAt(pattern, s, p0)
    requires p0 <= |s| && NoDigits(s[..p0])
    ensures FirstMatch(pattern, s) == Some(p0)
  {
    assert forall i :: 0 <= i < p0 ==> s[..p0][i] == s[i];
  }

  /** Digits, whitespace and the word `day`: where each part sits. */
  lemma DaysLayout(pre: string, ds: string, ws: string, post: string)
    ensures var s := pre + ds + ws + "day" + post;
            var f := |pre| + |ds| + |ws|;
            && f + 3 <= |s| && s[..|pre|] == pre && s[|pre|..|pre| + |ds|] == ds
            && s[|pre| + |ds|..f] == ws && s[f] == 'd' && s[f + 1] == 'a' && s[f + 2] == 'y'
  {
    var s := pre + ds + ws + "day" + post;
    assert s == pre + (ds + (ws + ("day" + post)));
  }

  /** Digits followed by whitespace that ends at a letter `d`: where each run ends, and
      the count the digits spell. */
  lemma CountThenSpaces(s: string, p0: nat, ds: string, ws: string)
    requires |ds| >= 1 && AllDigits(ds)
    requires forall i :: 0 <= i < |ws| ==> IsWhitespace(ws[i])
    requires p0 + |ds| + |ws| < |s|
    requires s[p0..p0 + |ds|] == ds && s[p0 + |ds|..p0 + |ds| + |ws|] == ws
    requires s[p0 + |ds| + |ws|] == 'd'
    ensures p0 < |s| && IsDigit(s[p0]) && NumberAt(s, p0) == DecimalValue(ds)
    ensures DigitsEnd(s, p0) == p0 + |ds| && SpacesEnd(s, p0 + |ds|) == p0 + |ds| + |ws|
  {
    WhitespacePart(s, p0 + |ds|, ws);
    DigitPart(s, p0, ds);
  }

  /** Once the count and the whitespace after it are known to end at `f`, `day` at `f`
      completes the first pattern. */
  lemma DaysAssemble(s: string, p0: nat, e: nat, f: nat)
    requires p0 < |s| && IsDigit(s[p0]) && e <= |s| && DigitsEnd(s, p0) == e && SpacesEnd(s, e) == f
    requires f + 3 <= |s| && s[f] == 'd' && s[f + 1] == 'a' && s[f + 2] == 'y'
    ensures MatchesAt(DaysPattern, s, p0)
  {
    assert DayAt(s, f);
  }

  /** A run of whitespace that ends at a letter `d`. */
  lemma WhitespacePart(s: string, e: nat, ws: string)
    requires forall i :: 0 <= i < |ws| ==> IsWhitespace(ws[i])
    requires e + |ws| < |s| && s[e..e + |ws|] == ws && s[e + |ws|] == 'd'
    ensures SpacesEnd(s, e) == e + |ws| && !IsDigit(s[e])
  {
    if ws != [] {
      assert s[e] == ws[0];
    }
    forall k | e <= k < e + |ws| ensures IsWhitespace(s[k]) {
      assert s[k] == ws[k - e];
    }
    SpacesEndOf(s, e, |ws|);
  }

  /** `5 days`, `12 Day`, `3days`: a count, optional whitespace and `day` after text with
      no digits is read back exactly. */
  lemma DaysRoundTrip(pre: string, n: nat, ws: string, post: string)
    requires NoDigits(pre)
    requires forall i :: 0 <= i < |ws| ==> IsWhitespace(ws[i])
    ensures ExtractDuration(pre + NatToString(n) + ws + "day" + post) == Some(n)
  {
    var ds := NatToString(n);
    var s := pre + ds + ws + "day" + post;
    DaysLayout(pre, ds, ws, post);
    CountThenSpaces(s, |pre|, ds, ws);
    DaysAssemble(s, |pre|, |pre| + |ds|, |pre| + |ds| + |ws|);
    FirstMatchAt(DaysPattern, s, |pre|);
    ExtractDurationSteps(s);
  }

  /** Digits, a hyphen and the word `day`: where each part sits. */
  lemma HyphenLayout(pre: string, ds: string, post: string)
    ensures var s := pre + ds + "-day" + post;
            var e := |pre| + |ds|;
            && e + 4 <= |s| && s[..|pre|] == pre && s[|pre|..e] == ds
            && s[e] == '-' && s[e + 1] == 'd' && s[e + 2] == 'a' && s[e + 3] == 'y'
  {
    var s := pre + ds + "-day" + post;
    assert s == pre + (ds + ("-day" + post));
  }

  /** Digits followed by `-day`: the third pattern matches at the digits, and they are the
      count. */
  lemma HyphenMatch(s: string, p0: nat, ds: string)
    requires |ds| >= 1 && AllDigits(ds)
    requires var e := p0 + |ds|;
             && e + 4 <= |s| && s[p0..e] == ds
             && s[e] == '-' && s[e + 1] == 'd' && s[e + 2] == 'a' && s[e + 3] == 'y'
    ensures MatchesAt(HyphenDayPattern, s, p0) && NumberAt(s, p0) == DecimalValue(ds)
  {
    var e := p0 + |ds|;
    DigitPart(s, p0, ds);
    assert SpacesEnd(s, e) == e;
    assert SpacesEnd(s, e + 1) == e + 1;
  }

  /** In `pre + ds + "-day" + post` with digits only in `ds`, every digit lies in `ds`,
      and a hyphen follows it. */
  lemma HyphenDigits(pre: string, ds: string, post: string)
    requires AllDigits(ds)
    requires NoDigits(pre) && NoDigits(post)
    ensures var s := pre + ds + "-day" + post;
            && |pre| + |ds| < |s| && s[|pre| + |ds|] == '-'
            && (forall k :: |pre| <= k < |pre| + |ds| ==> IsDigit(s[k]))
            && (forall k :: 0 <= k < |s| && IsDigit(s[k]) ==> |pre| <= k < |pre| + |ds|)
  {
    var s := pre + ds + "-day" + post;
    var e := |pre| + |ds|;
    assert s == pre + (ds + ("-day" + post));
    forall k | 0 <= k < |pre| ensures !IsDigit(s[k]) {
      assert s[k] == pre[k];
    }
    forall k | |pre| <= k < e ensures IsDigit(s[k]) {
      assert s[k] == ds[k - |pre|];
    }
    assert !IsDigit(s[e]) && !IsDigit(s[e + 1]) && !IsDigit(s[e + 2]) && !IsDigit(s[e + 3]);
    forall k | e + 4 <= k < |s| ensures !IsDigit(s[k]) {
      assert s[k] == post[k - e - 4];
    }
  }

  /** When every digit of `s` lies in one run that is followed by a hyphen, the first
      pattern matches nowhere. */
  lemma NoDaysBeforeHyphen(s: string, p0: nat, e: nat)
    requires p0 <= e < |s| && s[e] == '-'
    requires forall k :: p0 <= k < e ==> IsDigit(s[k])
    requires forall k :: 0 <= k < |s| && IsDigit(s[k]) ==> p0 <= k < e
    ensures forall p :: 0 <= p < |s| ==> !MatchesAt(DaysPattern, s, p)
  {
    assert SpacesEnd(s, e) == e;
    forall p | 0 <= p < |s| && IsDigit(s[p]) ensures !DayAt(s, SpacesEnd(s, DigitsEnd(s, p))) {
      DigitsEndOf(s, p, e - p);
    }
  }

  /** `7-day` slips past the first two patterns and is caught by the third: the count is
      read back exactly when the rest of the text has no digits. */
  lemma HyphenRoundTrip(pre: string, n: nat, post: string)
    requires NoDigits(pre) && NoDigits(post)
    ensures ExtractDuration(pre + NatToString(n) + "-day" + post) == Some(n)
  {
    var ds := NatToString(n);
    var s := pre + ds + "-day" + post;
    HyphenLayout(pre, ds, post);
    HyphenMatch(s, |pre|, ds);
    HyphenDigits(pre, ds, post);
    NoDaysBeforeHyphen(s, |pre|, |pre| + |ds|);
    forall p | 0 <= p < |s| ensures !MatchesAt(DayTripPattern, s, p) {
      DayTripIsDays(s, p);
    }
    FirstMatchAt(HyphenDayPattern, s, |pre|);
    ExtractDurationSteps(s);
  }

  /** `5 days` is a five-day trip. */
  lemma FiveDays()
    ensures ExtractDuration("5 days") == Some(5)
  {
    assert NatToString(5) == "5";
    assert "5 days" == "" + NatToString(5) + " " + "day" + "s";
    DaysRoundTrip("", 5, " ", "s");
  }

  /** `7-day` is a seven-day trip. */
  lemma SevenDashDay()
    ensures ExtractDuration("7-day") == Some(7)
  {
    assert NatToString(7) == "7";
    assert "7-day" == "" + NatToString(7) + "-day" + "";
    HyphenRoundTrip("", 7, "");
  }

  // ---------------------------------------------------------------------------
  // System prompt

  /** The sentence added to the system prompt for a trip of `days` days. */
  function DurationNote(days: nat): string {
    NoteLead + NatToString(days) + NoteMiddle + NatToString(days) + NoteEnd
  }

  const NoteLead := "\n\nHey! The user specifically asked for a "
  const NoteMiddle := "-day trip, so make sure your itinerary covers exactly "
  const NoteEnd := " days of awesome activities!"

  /** The system prompt after the duration rule: the note is added only for a duration that
      was found and is not zero, since `0` counts as false. */
  function SystemPromptFor(basePrompt: string, requestedDays: Option<nat>): (prompt: string)
    ensures |basePrompt| <= |prompt| && prompt[..|basePrompt|] == basePrompt
    ensures prompt == basePrompt <==> requestedDays.None? || requestedDays.value == 0
  {
    if requestedDays.Some? && requestedDays.value != 0 then basePrompt + DurationNote(requestedDays.value)
    else basePrompt
  }

  /** The note names the number of days the text asked for, right after the base prompt
      and the lead-in. */
  lemma PromptNamesTheDays(basePrompt: string, days: nat)
    requires days != 0
    ensures OccursAt(SystemPromptFor(basePrompt, Some(days)), NatToString(days) + NoteMiddle, |basePrompt| + |NoteLead|)
  {
    assert SystemPromptFor(basePrompt, Some(days)) == basePrompt + DurationNote(days);
    NoteLayout(basePrompt, NoteLead, NatToString(days), NoteMiddle, NoteEnd);
  }

  /** Where the second piece of a note built as `lead + n + middle + n + tail` lands once
      the note is appended to a prompt. */
  lemma NoteLayout(base: string, lead: string, n: string, middle: string, tail: string)
    ensures OccursAt(base + (lead + n + middle + n + tail), n + middle, |base| + |lead|)
  {
    var s := base + (lead + n + middle + n + tail);
    assert s == (base + lead) + (n + middle) + (n + tail);
    assert s[|base| + |lead|..|base| + |lead| + |n + middle|] == n + middle;
  }

  /** `0 days` is found, but adds nothing to the prompt. */
  lemma ZeroDaysAddsNothing(basePrompt: string)
    ensures ExtractDuration("0 days") == Some(0)
    ensures SystemPromptFor(basePrompt, ExtractDuration("0 days")) == basePrompt
  {
    assert NatToString(0) == "0";
    assert "0 days" == "" + NatToString(0) + " " + "day" + "s";
    DaysRoundTrip("", 0, " ", "s");
  }

  // ---------------------------------------------------------------------------
  // Message list

  /** The history filter: the content is a string with something other than whitespace. */
  predicate Kept(item: HistoryItem) {
    item.content.Text? && Trim(item.content.text) != ""
  }

  /** The history map: the sender `user` speaks as the user, anyone else as the assistant,
      and the content is trimmed. */
  function ToMessage(item: HistoryItem): (m: ChatMessage)
    requires Kept(item)
    ensures m.role == User <==> item.sender == Text("user")
    ensures m.role != System
  {
    ChatMessage(if item.sender == Text("user") then User else Assistant, Trim(item.content.text))
  }

  /** `items.map(ToMessage)`. */
  function HistoryMessages(items: seq<HistoryItem>): (r: seq<ChatMessage>)
    requires forall i :: 0 <= i < |items| ==> Kept(items[i])
    ensures |r| == |items|
    ensures forall i :: 0 <= i < |items| ==> r[i] == ToMessage(items[i])
  {
    if items == [] then [] else [ToMessage(items[0])] + HistoryMessages(items[1..])
  }

  /** The message list: the system prompt, the kept history in its order, and the current
      message as sent. */
  function BuildMessages(systemPrompt: string, history: seq<HistoryItem>, message: string): (r: seq<ChatMessage>)
    ensures |r| == |Filter(history, Kept)| + 2
    ensures r[0] == ChatMessage(System, systemPrompt)
    ensures r[|r| - 1] == ChatMessage(User, message)
    ensures forall i :: 1 <= i < |r| - 1 ==> r[i] == ToMessage(Filter(history, Kept)[i - 1])
  {
    var middle := HistoryMessages(Filter(history, Kept));
    var r := [ChatMessage(System, systemPrompt)] + middle + [ChatMessage(User, message)];
    assert forall i :: 1 <= i < |r| - 1 ==> r[i] == middle[i - 1];
    r
  }

  /** Between the first and the last message, no message is a system message and every
      content is non-empty with no whitespace at either end. */
  lemma HistoryMessagesAreClean(systemPrompt: string, history: seq<HistoryItem>, message: string)
    ensures var r := BuildMessages(systemPrompt, history, message);
            forall i :: 1 <= i < |r| - 1 ==> && r[i].role != System && r[i].content != []
                                             && !IsWhitespace(r[i].content[0])
                                             && !IsWhitespace(r[i].content[|r[i].content| - 1])
  {
    var kept := Filter(history, Kept);
    var r := BuildMessages(systemPrompt, history, message);
    forall i | 1 <= i < |r| - 1
      ensures && r[i].role != System && r[i].content != []
              && !IsWhitespace(r[i].content[0]) && !IsWhitespace(r[i].content[|r[i].content| - 1])
    {
      assert Kept(kept[i - 1]) && r[i] == ToMessage(kept[i - 1]);
    }
  }

  /** When every history entry has text, each becomes one message, in order. */
  lemma FullHistoryKept(systemPrompt: string, history: seq<HistoryItem>, message: string)
    requires forall i :: 0 <= i < |history| ==> Kept(history[i])
    ensures var r := BuildMessages(systemPrompt, history, message);
            |r| == |history| + 2 && forall i :: 0 <= i < |history| ==> r[i + 1] == ToMessage(history[i])
  {
    FilterAll(history, Kept);
  }

  /** Entries without text are dropped: only the system prompt and the message remain. */
  lemma BlankHistoryDropped(systemPrompt: string, history: seq<HistoryItem>, message: string)
    requires forall i :: 0 <= i < |history| ==> !Kept(history[i])
    ensures BuildMessages(systemPrompt, history, message)
            == [ChatMessage(System, systemPrompt), ChatMessage(User, message)]
  {
    FilterNone(history, Kept);
  }

  // ---------------------------------------------------------------------------
  // Handler

  /** `POST`, up to the call to the model. The wording of the system prompt is the
      parameter `basePrompt`; whether an API key is configured is `apiKeyConfigured`. */
  function HandleChat(request: ChatRequest, apiKeyConfigured: bool, basePrompt: string): (r: ChatResponse)
    ensures r.BadRequest? <==> !ValidMessage(request.message)
    ensures r.ServerError? <==> ValidMessage(request.message) && !apiKeyConfigured
    ensures r.BadRequest? ==> r.error == InvalidMessageError
    ensures r.ServerError? ==> r.error == MissingKeyError
  {
    if !ValidMessage(request.message) then
      BadRequest(InvalidMessageError)
    else if !apiKeyConfigured then
      ServerError(MissingKeyError)
    else
      var message := request.message.text;
      var prompt := SystemPromptFor(basePrompt, ExtractDuration(message));
      Completion(BuildMessages(prompt, request.conversationHistory, message))
  }

  /** An accepted request sends the prompt with its duration note first and the message,
      untrimmed, last. */
  lemma CompletionMessages(request: ChatRequest, basePrompt: string)
    requires ValidMessage(request.message)
    ensures var r := HandleChat(request, true, basePrompt);
            && r.Completion? && |r.messages| >= 2
            && r.messages[0] == ChatMessage(System, SystemPromptFor(basePrompt, ExtractDuration(request.message.text)))
            && r.messages[|r.messages| - 1] == ChatMessage(User, request.message.text)
  {
  }

  /** A message of whitespace only is refused before anything else is looked at. */
  lemma BlankMessageRefused(message: string, history: seq<HistoryItem>, apiKeyConfigured: bool, basePrompt: string)
    requires forall i :: 0 <= i < |message| ==> IsWhitespace(message[i])
    ensures HandleChat(ChatRequest(Text(message), history), apiKeyConfigured, basePrompt) == BadRequest(InvalidMessageError)
  {
  }
}
