/** Pictures and colour gradients for destinations: a fixed table of curated photographs
    looked up by destination name, and a gradient chosen from the characters of the name for
    destinations that have no photograph. */
module DestinationImages {
  import opened Wrappers
  import opened JsText
  import opened Seqs

  datatype DestinationImage = DestinationImage(url: string, alt: string, credit: Option<string>)

  /** One property of the `DESTINATION_IMAGES` record: its key and its image. */
  datatype ImageEntry = ImageEntry(key: string, image: DestinationImage)

  const LondonImage := DestinationImage(
    "https://images.unsplash.com/photo-1513635269975-59663e0ac1ad?ixlib=rb-4.0.3&ixid=M3wxMjA3fDB8MHxwaG90by1wYWdlfHx8fGVufDB8fHx8fA%3D%3D&auto=format&fit=crop&w=2070&q=80",
    "London skyline with Big Ben and Thames",
    Some("Photo by Benjamin Davies on Unsplash"))

  const ParisImage := DestinationImage(
    "https://images.unsplash.com/photo-1502602898536-47ad22581b52?ixlib=rb-4.0.3&ixid=M3wxMjA3fDB8MHxwaG90by1wYWdlfHx8fGVufDB8fHx8fA%3D%3D&auto=format&fit=crop&w=2073&q=80",
    "Paris cityscape with Eiffel Tower",
    Some("Photo by Anthony DELANOIX on Unsplash"))

  const TokyoImage := DestinationImage(
    "https://images.unsplash.com/photo-1540959733332-eab4deabeeaf?ixlib=rb-4.0.3&ixid=M3wxMjA3fDB8MHxwaG90by1wYWdlfHx8fGVufDB8fHx8fA%3D%3D&auto=format&fit=crop&w=2094&q=80",
    "Tokyo skyline at sunset",
    Some("Photo by Louie Martinez on Unsplash"))

  const NewYorkImage := DestinationImage(
    "https://images.unsplash.com/photo-1496442226666-8d4d0e62e6e9?ixlib=rb-4.0.3&ixid=M3wxMjA3fDB8MHxwaG90by1wYWdlfHx8fGVufDB8fHx8fA%3D%3D&auto=format&fit=crop&w=2070&q=80",
    "New York City skyline",
    Some("Photo by Luca Bravo on Unsplash"))

  const RomeImage := DestinationImage(
    "https://images.unsplash.com/photo-1552832230-c0197dd311b5?ixlib=rb-4.0.3&ixid=M3wxMjA3fDB8MHxwaG90by1wYWdlfHx8fGVufDB8fHx8fA%3D%3D&auto=format&fit=crop&w=2096&q=80",
    "Rome Colosseum and ancient architecture",
    Some("Photo by David Köhler on Unsplash"))

  const BarcelonaImage := DestinationImage(
    "https://images.unsplash.com/photo-1539037116277-4db20889f2d4?ixlib=rb-4.0.3&ixid=M3wxMjA3fDB8MHxwaG90by1wYWdlfHx8fGVufDB8fHx8fA%3D%3D&auto=format&fit=crop&w=2070&q=80",
    "Barcelona cityscape with Sagrada Familia",
    Some("Photo by Toa Heftiba on Unsplash"))

  const AmsterdamImage := DestinationImage(
    "https://images.unsplash.com/photo-1534351590666-13e3e96b5017?ixlib=rb-4.0.3&ixid=M3wxMjA3fDB8MHxwaG90by1wYWdlfHx8fGVufDB8fHx8fA%3D%3D&auto=format&fit=crop&w=2070&q=80",
    "Amsterdam canals and historic buildings",
    Some("Photo by Adrien Olichon on Unsplash"))

  const DubaiImage := DestinationImage(
    "https://images.unsplash.com/photo-1512453979798-5ea266f8880c?ixlib=rb-4.0.3&ixid=M3wxMjA3fDB8MHxwaG90by1wYWdlfHx8fGVufDB8fHx8fA%3D%3D&auto=format&fit=crop&w=2070&q=80",
    "Dubai skyline with Burj Khalifa",
    Some("Photo by ZQ Lee on Unsplash"))

  /** `DESTINATION_IMAGES`, in the order its keys were written. */
  const ImageTable: seq<ImageEntry> := [
    ImageEntry("London", LondonImage),
    ImageEntry("London, UK", LondonImage),
    ImageEntry("Paris", ParisImage),
    ImageEntry("Paris, France", ParisImage),
    ImageEntry("Tokyo", TokyoImage),
    ImageEntry("Tokyo, Japan", TokyoImage),
    ImageEntry("New York", NewYorkImage),
    ImageEntry("New York City", NewYorkImage),
    ImageEntry("Rome", RomeImage),
    ImageEntry("Rome, Italy", RomeImage),
    ImageEntry("Barcelona", BarcelonaImage),
    ImageEntry("Barcelona, Spain", BarcelonaImage),
    ImageEntry("Amsterdam", AmsterdamImage),
    ImageEntry("Amsterdam, Netherlands", AmsterdamImage),
    ImageEntry("Dubai", DubaiImage),
    ImageEntry("Dubai, UAE", DubaiImage)
  ]

  /** `GRADIENT_FALLBACKS`. */
  const GradientFallbacks: seq<string> := [
    "bg-gradient-to-br from-blue-500 via-purple-600 to-teal-500",
    "bg-gradient-to-br from-orange-400 via-red-500 to-pink-500",
    "bg-gradient-to-br from-green-400 via-blue-500 to-purple-600",
    "bg-gradient-to-br from-yellow-400 via-orange-500 to-red-500",
    "bg-gradient-to-br from-indigo-500 via-purple-500 to-pink-500",
    "bg-gradient-to-br from-teal-400 via-cyan-500 to-blue-500"
  ]

  // ---------------------------------------------------------------------------
  // Image lookup

  /** The test `DESTINATION_IMAGES[destination]`: the entry stored under exactly this key. */
  function HasKey(key: string): ImageEntry -> bool {
    (e: ImageEntry) => e.key == key
  }

  /** The partial-match test of the lookup loop: the lower-cased destination contains the
      lower-cased key, or the other way round. */
  predicate Overlaps(lowerDestination: string, key: string) {
    Contains(lowerDestination, ToLower(key)) || Contains(ToLower(key), lowerDestination)
  }

  function OverlapsWith(lowerDestination: string): ImageEntry -> bool {
    (e: ImageEntry) => Overlaps(lowerDestination, e.key)
  }

  /** `getDestinationImage` over a table of entries: the entry stored under exactly the
      destination; otherwise the first entry, in table order, whose key and the destination
      overlap once both are lower-cased; otherwise none. */
  function ImageFor(table: seq<ImageEntry>, destination: string): (r: Option<DestinationImage>)
    ensures r.Some? ==> exists k :: 0 <= k < |table| && table[k].image == r.value
    ensures r.None? <==> forall k :: 0 <= k < |table|
                                     ==> table[k].key != destination && !Overlaps(ToLower(destination), table[k].key)
  {
    var exact := Find(table, HasKey(destination));
    if exact.Some? then
      Some(exact.value.image)
    else
      var partial := Find(table, OverlapsWith(ToLower(destination)));
      if partial.Some? then
        Some(partial.value.image)
      else
        assert forall k :: 0 <= k < |table| ==> !HasKey(destination)(table[k]) && !OverlapsWith(ToLower(destination))(table[k]);
        None
  }

  /** `getDestinationImage`. */
  function GetDestinationImage(destination: string): Option<DestinationImage> {
    ImageFor(ImageTable, destination)
  }

  /** The first entry that satisfies a test is the one `Find` returns. */
  lemma FindFirst(table: seq<ImageEntry>, p: ImageEntry -> bool, k: nat)
    requires k < |table| && p(table[k])
    requires forall j :: 0 <= j < k ==> !p(table[j])
    ensures Find(table, p) == Some(table[k])
  {
    var r := Find(table, p);
    var i :| 0 <= i < |table| && table[i] == r.value && p(table[i]) && forall j :: 0 <= j < i ==> !p(table[j]);
    assert i == k;
  }

  /** A destination written exactly as a key gets that key's image, whatever partial matches
      come earlier in the table. */
  lemma ExactKeyWins(table: seq<ImageEntry>, destination: string, k: nat)
    requires k < |table| && table[k].key == destination
    requires forall j :: 0 <= j < k ==> table[j].key != destination
    ensures ImageFor(table, destination) == Some(table[k].image)
  {
    FindFirst(table, HasKey(destination), k);
  }

  /** Without an exact key, the first overlapping entry in table order decides. */
  lemma FirstOverlapWins(table: seq<ImageEntry>, destination: string, k: nat)
    requires forall j :: 0 <= j < |table| ==> table[j].key != destination
    requires k < |table| && Overlaps(ToLower(destination), table[k].key)
    requires forall j :: 0 <= j < k ==> !Overlaps(ToLower(destination), table[j].key)
    ensures ImageFor(table, destination) == Some(table[k].image)
  {
    assert forall j :: 0 <= j < |table| ==> !HasKey(destination)(table[j]);
    FindFirst(table, OverlapsWith(ToLower(destination)), k);
  }

  /** Every key contains the empty string, so an empty destination gets the first image of a
      table whose keys are all non-empty. */
  lemma EmptyGetsFirst(table: seq<ImageEntry>)
    requires |table| > 0
    requires forall k :: 0 <= k < |table| ==> table[k].key != ""
    ensures ImageFor(table, "") == Some(table[0].image)
  {
    assert ToLower("") == "";
    ContainsEmpty(ToLower(table[0].key));
    FirstOverlapWins(table, "", 0);
  }

  /** The empty destination gets the London photograph. */
  lemma EmptyDestinationGetsLondon()
    ensures GetDestinationImage("") == Some(LondonImage)
  {
    forall k | 0 <= k < |ImageTable| ensures ImageTable[k].key != "" {
      assert |ImageTable[k].key| > 0;
    }
    EmptyGetsFirst(ImageTable);
  }

  /** `Paris, France` is a key of its own. */
  lemma ParisFranceIsExact()
    ensures GetDestinationImage("Paris, France") == Some(ParisImage)
  {
    ExactKeyWins(ImageTable, "Paris, France", 3);
  }

  // ---------------------------------------------------------------------------
  // Gradient fallback

  /** The UTF-16 code units of a character, as `split('')` and `charCodeAt(0)` see them:
      one unit below U+10000, a surrogate pair above. */
  function CodeUnits(c: char): (r: seq<nat>)
    ensures |r| == 1 <==> c as int < 0x1_0000
    ensures |r| == 1 || |r| == 2
  {
    var v := c as int;
    if v < 0x1_0000 then [v]
    else [0xD800 + (v - 0x1_0000) / 0x400, 0xDC00 + (v - 0x1_0000) % 0x400]
  }

  /** The units decode back to the character: the character itself below U+10000, else a
      high surrogate and a low surrogate that together spell it. */
  lemma CodeUnitsDecode(c: char)
    ensures var r := CodeUnits(c);
            |r| == 1 ==> r[0] == c as int
    ensures var r := CodeUnits(c);
            |r| == 2 ==> && 0xD800 <= r[0] < 0xDC00 <= r[1] < 0xE000
                         && 0x1_0000 + (r[0] - 0xD800) * 0x400 + (r[1] - 0xDC00) == c as int
  {
  }

  /** The code units of a string, in order. */
  function Utf16(s: string): seq<nat> {
    if s == [] then [] else CodeUnits(s[0]) + Utf16(s[1..])
  }

  /** `reduce((acc, unit) => acc + unit, acc)` over code units, from the left. */
  function Reduce(acc: nat, units: seq<nat>): nat
    decreases |units|
  {
    if units == [] then acc else Reduce(acc + units[0], units[1..])
  }

  /** The hash `getGradientFallback` computes: the sum of the code units. */
  function GradientHash(destination: string): nat {
    Reduce(0, Utf16(destination))
  }

  /** `getGradientFallback` over a list of gradients: the one at the hash modulo the length. */
  function GradientFor(gradients: seq<string>, destination: string): (r: string)
    requires |gradients| > 0
    ensures r in gradients
    ensures destination == "" ==> r == gradients[0]
  {
    gradients[GradientHash(destination) % |gradients|]
  }

  function GetGradientFallback(destination: string): (r: string)
    ensures r in GradientFallbacks
  {
    GradientFor(GradientFallbacks, destination)
  }

  /** The sum of a sequence of numbers, from the right: the reference for `Reduce`. */
  function Total(units: seq<nat>): nat {
    if units == [] then 0 else units[0] + Total(units[1..])
  }

  /** The sum of the code units of each character, character by character. */
  function CharSum(s: string): nat {
    if s == [] then 0 else Total(CodeUnits(s[0])) + CharSum(s[1..])
  }

  lemma {:induction false} ReduceIsTotal(acc: nat, units: seq<nat>)
    ensures Reduce(acc, units) == acc + Total(units)
    decreases |units|
  {
    if units != [] {
      ReduceIsTotal(acc + units[0], units[1..]);
    }
  }

  lemma {:induction false} TotalConcat(a: seq<nat>, b: seq<nat>)
    ensures Total(a + b) == Total(a) + Total(b)
    decreases |a|
  {
    if a == [] {
      assert a + b == b;
    } else {
      assert (a + b)[1..] == a[1..] + b;
      TotalConcat(a[1..], b);
    }
  }

  lemma {:induction false} Utf16Total(s: string)
    ensures Total(Utf16(s)) == CharSum(s)
    decreases |s|
  {
    if s != [] {
      TotalConcat(CodeUnits(s[0]), Utf16(s[1..]));
      Utf16Total(s[1..]);
    }
  }

  /** The hash is the character-by-character sum of code units. */
  lemma HashIsCharSum(s: string)
    ensures GradientHash(s) == CharSum(s)
  {
    ReduceIsTotal(0, Utf16(s));
    Utf16Total(s);
  }

  lemma {:induction false} CharSumConcat(a: string, b: string)
    ensures CharSum(a + b) == CharSum(a) + CharSum(b)
    decreases |a|
  {
    if a == [] {
      assert a + b == b;
    } else {
      assert (a + b)[0] == a[0] && (a + b)[1..] == a[1..] + b;
      CharSumConcat(a[1..], b);
    }
  }

  /** Taking the character at `i` out of `t` leaves the other characters. */
  lemma RemoveAtMultiset(t: string, i: nat)
    requires i < |t|
    ensures multiset(t[..i] + t[i + 1..]) == multiset(t) - multiset{t[i]}
  {
    assert t == t[..i] + [t[i]] + t[i + 1..];
  }

  /** Taking the character at `i` out of `t` leaves the rest of the sum. */
  lemma RemoveAtSum(t: string, i: nat)
    requires i < |t|
    ensures CharSum(t) == CharSum(t[..i] + t[i + 1..]) + Total(CodeUnits(t[i]))
  {
    assert t == t[..i] + ([t[i]] + t[i + 1..]);
    CharSumConcat(t[..i], [t[i]] + t[i + 1..]);
    CharSumConcat([t[i]], t[i + 1..]);
    CharSumConcat(t[..i], t[i + 1..]);
  }

  /** The first character of `s` sits somewhere in a rearrangement `t` of it; the rest of
      `s` is a rearrangement of `t` without that character. */
  lemma MatchingTail(s: string, t: string) returns (i: nat)
    requires s != [] && multiset(s) == multiset(t)
    ensures i < |t| && t[i] == s[0]
    ensures multiset(s[1..]) == multiset(t[..i] + t[i + 1..])
  {
    assert s[0] in multiset(t);
    i :| 0 <= i < |t| && t[i] == s[0];
    RemoveAtMultiset(t, i);
    RemoveAtMultiset(s, 0);
    assert s[..0] + s[1..] == s[1..];
  }

  /** Strings with the same characters, in any order, have the same code-unit sum. */
  lemma {:induction false} CharSumPermutation(s: string, t: string)
    requires multiset(s) == multiset(t)
    ensures CharSum(s) == CharSum(t)
    decreases |s|
  {
    if s == [] {
      assert |t| == |multiset(t)| == 0;
    } else {
      var i := MatchingTail(s, t);
      CharSumPermutation(s[1..], t[..i] + t[i + 1..]);
      RemoveAtSum(t, i);
    }
  }

  /** The gradient depends only on which characters the destination has, not their order. */
  lemma GradientIgnoresOrder(gradients: seq<string>, s: string, t: string)
    requires |gradients| > 0
    requires multiset(s) == multiset(t)
    ensures GradientFor(gradients, s) == GradientFor(gradients, t)
  {
    HashIsCharSum(s);
    HashIsCharSum(t);
    CharSumPermutation(s, t);
  }
}
