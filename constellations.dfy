/**
 * The constellation catalogue of the tech map and the keyword classifier
 * that assigns a company description to one of its entries
 * (src/pages/Techmap.jsx, lines 9-140 and 157-171).
 */
module Constellations {
  import opened Util

  /** One catalogue entry: id, display name, colour and its keywords as written. */
  datatype Constellation = Constellation(id: string, name: string, color: string, keywords: seq<string>)

  /** The part of an entry a placed company carries: no keyword list. */
  datatype Badge = Badge(id: string, name: string, color: string)

  function BadgeOf(c: Constellation): Badge
  {
    Badge(c.id, c.name, c.color)
  }

  const AiMl := Constellation("AI_ML", "AI & Machine Learning", "#6366f1",
    ["AI", "artificial intelligence", "machine learning", "ML", "neural",
     "deep learning", "NLP", "computer vision", "language model"])

  const Fintech := Constellation("FINTECH", "Financial Technology", "#f59e0b",
    ["financial", "finance", "payment", "banking", "fintech", "trading",
     "investment", "credit", "loan", "insurance"])

  const Hardware := Constellation("HARDWARE", "Hardware & Semiconductors", "#e5e7eb",
    ["semiconductor", "chip", "hardware", "memory", "storage", "flash",
     "processor", "computing", "quantum", "electronic"])

  const Security := Constellation("SECURITY", "Security & Infrastructure", "#ef4444",
    ["security", "cybersecurity", "protection", "endpoint", "firewall",
     "threat", "vulnerability", "encryption", "privacy"])

  const Consumer := Constellation("CONSUMER", "Consumer & Entertainment", "#10b981",
    ["streaming", "entertainment", "consumer", "gaming", "media", "content",
     "platform", "social", "mobile app"])

  const Enterprise := Constellation("ENTERPRISE", "Enterprise Software", "#8b5cf6",
    ["enterprise", "business", "software", "platform", "SaaS", "productivity",
     "workflow", "management", "collaboration"])

  const Biotech := Constellation("BIOTECH", "Biotechnology & Health", "#06b6d4",
    ["biotech", "health", "medical", "pharmaceutical", "therapy", "diagnostic",
     "clinical", "biology", "genetic"])

  const Mobility := Constellation("MOBILITY", "Mobility & Transportation", "#f97316",
    ["autonomous", "vehicle", "transportation", "mobility", "automotive",
     "delivery", "logistics", "ride", "driving"])

  /** The catalogue in declaration order, which is the order the classifier tries. */
  const Catalogue: seq<Constellation> :=
    [AiMl, Fintech, Hardware, Security, Consumer, Enterprise, Biotech, Mobility]

  /** ASCII case folding of one character. */
  function LowerChar(c: char): char
  {
    if 'A' <= c <= 'Z' then (c as int + 32) as char else c
  }

  /** `toLowerCase`, restricted to ASCII letters. */
  function Lower(s: string): (r: string)
    ensures |r| == |s|
    ensures forall i :: 0 <= i < |s| ==> r[i] == LowerChar(s[i])
    ensures forall i :: 0 <= i < |r| ==> !('A' <= r[i] <= 'Z')
    ensures forall i :: 0 <= i < |s| && !('A' <= s[i] <= 'Z') ==> r[i] == s[i]
  {
    seq(|s|, i requires 0 <= i < |s| => LowerChar(s[i]))
  }

  /** `p` occurs in `s` starting at index `i`. */
  ghost predicate OccursAt(s: string, p: string, i: int)
  {
    0 <= i && i + |p| <= |s| && s[i..i + |p|] == p
  }

  /** `s.includes(p)`: substring containment, tried from the left. */
  function Contains(s: string, p: string): (b: bool)
    ensures b <==> exists i :: OccursAt(s, p, i)
    decreases |s|
  {
    if |p| > |s| then
      false
    else if s[..|p|] == p then
      assert OccursAt(s, p, 0);
      true
    else
      var rest := Contains(s[1..], p);
      assert forall i :: OccursAt(s, p, i) && i != 0 ==> OccursAt(s[1..], p, i - 1);
      assert forall i :: OccursAt(s[1..], p, i) ==> OccursAt(s, p, i + 1);
      rest
  }

  /** `keywords.some(k => desc.includes(k.toLowerCase()))`. */
  function AnyKeywordIn(desc: string, keywords: seq<string>): (b: bool)
    ensures b <==> exists k :: 0 <= k < |keywords| && Contains(desc, Lower(keywords[k]))
  {
    if keywords == [] then
      false
    else if Contains(desc, Lower(keywords[0])) then
      true
    else
      var rest := AnyKeywordIn(desc, keywords[1..]);
      assert forall k :: 0 < k < |keywords| ==> keywords[k] == keywords[1..][k - 1];
      rest
  }

  /** The lower-cased description `desc` hits some keyword of `c`. */
  predicate Matches(desc: string, c: Constellation)
  {
    AnyKeywordIn(desc, c.keywords)
  }

  /** Index of the first entry of `cat` that `desc` matches, if any. */
  function FirstMatch(desc: string, cat: seq<Constellation>): (r: Option<nat>)
    ensures r.Some? ==> r.value < |cat| && Matches(desc, cat[r.value])
    ensures r.Some? ==> forall j :: 0 <= j < r.value ==> !Matches(desc, cat[j])
    ensures r.None? <==> forall j :: 0 <= j < |cat| ==> !Matches(desc, cat[j])
  {
    if cat == [] then
      None
    else if Matches(desc, cat[0]) then
      Some(0)
    else
      match FirstMatch(desc, cat[1..])
      case None => None
      case Some(k) => Some(k + 1)
  }

  /** `determineConstellation`: first catalogue entry whose keyword occurs in
      the lower-cased description; ENTERPRISE when none does. */
  function DetermineConstellation(description: string): (c: Constellation)
    ensures c in Catalogue
    ensures (forall j :: 0 <= j < |Catalogue| ==> !Matches(Lower(description), Catalogue[j])) ==> c == Enterprise
  {
    match FirstMatch(Lower(description), Catalogue)
    case Some(i) => Catalogue[i]
    case None => Enterprise
  }

  /** The classifier returns the entry at the first catalogue position whose keywords hit. */
  lemma DetermineIsFirstMatch(description: string, i: nat)
    requires i < |Catalogue| && Matches(Lower(description), Catalogue[i])
    requires forall j :: 0 <= j < i ==> !Matches(Lower(description), Catalogue[j])
    ensures DetermineConstellation(description) == Catalogue[i]
  {
    FirstMatchIsFirst(Lower(description), Catalogue, i);
  }

  /** Any entry that matches with no match before it is the one `FirstMatch` finds. */
  lemma FirstMatchIsFirst(desc: string, cat: seq<Constellation>, i: nat)
    requires i < |cat| && Matches(desc, cat[i])
    requires forall j :: 0 <= j < i ==> !Matches(desc, cat[j])
    ensures FirstMatch(desc, cat) == Some(i)
  {
    var r := FirstMatch(desc, cat);
    assert r.Some?;
  }

  /** Only the lower-cased description matters: case variants classify alike. */
  lemma DetermineIgnoresCase(d1: string, d2: string)
    requires Lower(d1) == Lower(d2)
    ensures DetermineConstellation(d1) == DetermineConstellation(d2)
  {
  }

  /** Lower-casing is idempotent, so a description and its lower-cased form classify alike. */
  lemma DetermineOfLowered(description: string)
    ensures DetermineConstellation(Lower(description)) == DetermineConstellation(description)
  {
    assert Lower(Lower(description)) == Lower(description);
  }

  /** "platform" is a CONSUMER keyword, and CONSUMER comes before ENTERPRISE:
      a description whose first four entries do not hit but which mentions
      "platform" is CONSUMER, never ENTERPRISE. */
  lemma PlatformIsConsumer(description: string)
    requires Contains(Lower(description), "platform")
    requires forall j :: 0 <= j < 4 ==> !Matches(Lower(description), Catalogue[j])
    ensures DetermineConstellation(description) == Consumer
  {
    assert Lower(Consumer.keywords[6]) == "platform";
    assert Matches(Lower(description), Catalogue[4]);
    DetermineIsFirstMatch(description, 4);
  }

  /** "AI-powered SaaS platform" also hits ENTERPRISE ("SaaS", "platform") and
      CONSUMER ("platform"), but AI_ML is tried first. */
  lemma AiPoweredSaasPlatform()
    ensures DetermineConstellation("AI-powered SaaS platform") == AiMl
  {
    var d := "AI-powered SaaS platform";
    assert Lower(d) == "ai-powered saas platform";
    assert Lower(AiMl.keywords[0]) == "ai";
    assert OccursAt(Lower(d), "ai", 0);
    assert Matches(Lower(d), Catalogue[0]);
  }

  /** Keywords match as bare substrings: "AI" hits inside "chain", so a supply
      chain company lands in AI_ML rather than MOBILITY. */
  lemma SupplyChainIsAiMl()
    ensures DetermineConstellation("Supply chain logistics") == AiMl
  {
    var d := "Supply chain logistics";
    assert Lower(d) == "supply chain logistics";
    assert Lower(AiMl.keywords[0]) == "ai";
    assert OccursAt(Lower(d), "ai", 9);
    assert Matches(Lower(d), Catalogue[0]);
  }
}
