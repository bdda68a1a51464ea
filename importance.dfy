/** The importance policy of `classify_importance`: a turn's text and role are
    mapped to an (importance, emotional valence) pair by three fixed marker
    lists checked in strict precedence: skip, then high, then low, then a
    default that depends on the role. Scores are kept in hundredths, so the
    source's 0.85 is 85 here; they are constants, never computed. */
module Importance {
  import opened Text

  datatype Score = Score(importance: int, valence: int)

  /** (0.0, 0.0): a tool or shell artifact, discarded by the importer. */
  const Discard := Score(0, 0)
  /** (0.85, 0.6): relational or identity content. */
  const Relational := Score(85, 60)
  /** (0.2, 0.0): technical, operational content. */
  const Technical := Score(20, 0)
  /** (0.5, 0.3): an unmarked turn whose role is "user". */
  const UserBaseline := Score(50, 30)
  /** (0.4, 0.1): an unmarked turn of any other role. */
  const AssistantBaseline := Score(40, 10)

  /** The five pairs the policy can produce. */
  const Scores := {Discard, Relational, Technical, UserBaseline, AssistantBaseline}

  /** The importer discards a turn whose importance is below 0.1. */
  const DiscardBelow := 10

  /** The three marker lists, in the order they are consulted. */
  datatype MarkerLists = MarkerLists(skip: seq<string>, high: seq<string>, low: seq<string>)

  const Markers := MarkerLists(
    skip := [
      "<bash-", "<local-command", "file-history-snapshot",
      "tool_use", "tool_result"
    ],
    high := [
      "дякую", "thank", "love", "важливо", "important",
      "відчуваю", "feel", "хочу", "want", "value", "цінність",
      "рішення", "decision", "принцип", "principle",
      "обійм", "hug", "разом", "together",
      "ідентичність", "identity", "довіра", "trust",
      "vesper", "ruth", "сузір'я", "constellation"
    ],
    low := [
      "docker", "git", "pip", "npm", "ls", "cd", "mkdir",
      "error", "failed", "running", "checking", "installed",
      "```", "exit code", "container", "port", "config"
    ])

  /** A skip marker occurs in the lowered text or in the text as given. */
  predicate SkipHit(lists: MarkerLists, content: string) {
    exists m :: m in lists.skip && (Contains(Lower(content), m) || Contains(content, m))
  }

  /** A high marker occurs in the lowered text. */
  predicate HighHit(lists: MarkerLists, content: string) {
    exists m :: m in lists.high && Contains(Lower(content), m)
  }

  /** A low marker occurs in the lowered text. */
  predicate LowHit(lists: MarkerLists, content: string) {
    exists m :: m in lists.low && Contains(Lower(content), m)
  }

  /** One pass over a marker list that stops at the first marker found in `text`. */
  function AnyIn(text: string, markers: seq<string>): bool
    decreases |markers|
  {
    if |markers| == 0 then false
    else Contains(text, markers[0]) || AnyIn(text, markers[1..])
  }

  /** The pass finds a marker exactly when some marker of the list occurs in `text`. */
  lemma {:induction false} AnyInMeaning(text: string, markers: seq<string>)
    ensures AnyIn(text, markers) <==> exists m :: m in markers && Contains(text, m)
    decreases |markers|
  {
    if |markers| > 0 {
      AnyInMeaning(text, markers[1..]);
      assert markers[0] in markers;
      assert forall m :: m in markers <==> m == markers[0] || m in markers[1..];
    }
  }

  /** The skip pass: each marker is looked for in the lowered text and then in the original. */
  function AnyInEither(lowered: string, original: string, markers: seq<string>): bool
    decreases |markers|
  {
    if |markers| == 0 then false
    else Contains(lowered, markers[0]) || Contains(original, markers[0]) || AnyInEither(lowered, original, markers[1..])
  }

  /** The skip pass finds a marker exactly when some marker occurs in either text. */
  lemma {:induction false} AnyInEitherMeaning(lowered: string, original: string, markers: seq<string>)
    ensures AnyInEither(lowered, original, markers) <==>
            exists m :: m in markers && (Contains(lowered, m) || Contains(original, m))
    decreases |markers|
  {
    if |markers| > 0 {
      AnyInEitherMeaning(lowered, original, markers[1..]);
      assert markers[0] in markers;
      assert forall m :: m in markers <==> m == markers[0] || m in markers[1..];
    }
  }

  /** `classify_importance` over given marker lists. */
  function ClassifyWith(lists: MarkerLists, content: string, role: string): Score {
    var lowered := Lower(content);
    if AnyInEither(lowered, content, lists.skip) then Discard
    else if AnyIn(lowered, lists.high) then Relational
    else if AnyIn(lowered, lists.low) then Technical
    else if role == "user" then UserBaseline
    else AssistantBaseline
  }

  /** The first list with a match decides, only an unmarked text looks at the
      role, and the score falls below the discard threshold exactly when a skip
      marker is present. */
  lemma ClassifyMeaning(lists: MarkerLists, content: string, role: string)
    ensures ClassifyWith(lists, content, role) in Scores
    ensures SkipHit(lists, content) ==> ClassifyWith(lists, content, role) == Discard
    ensures !SkipHit(lists, content) && HighHit(lists, content) ==> ClassifyWith(lists, content, role) == Relational
    ensures !SkipHit(lists, content) && !HighHit(lists, content) && LowHit(lists, content) ==>
              ClassifyWith(lists, content, role) == Technical
    ensures !SkipHit(lists, content) && !HighHit(lists, content) && !LowHit(lists, content) ==>
              ClassifyWith(lists, content, role) == if role == "user" then UserBaseline else AssistantBaseline
    ensures ClassifyWith(lists, content, role).importance < DiscardBelow <==> SkipHit(lists, content)
  {
    AnyInEitherMeaning(Lower(content), content, lists.skip);
    AnyInMeaning(Lower(content), lists.high);
    AnyInMeaning(Lower(content), lists.low);
  }

  /** `classify_importance(content, role)` with the source's own marker lists. */
  function Classify(content: string, role: string): Score {
    ClassifyWith(Markers, content, role)
  }

  lemma ShellMarkersLowerCase()
    ensures IsLowerCase("<bash-") && IsLowerCase("<local-command")
  {
    assert IsLowerCase("<bash-");
  }

  lemma SnapshotMarkerLowerCase()
    ensures IsLowerCase("file-history-snapshot")
  {
  }

  lemma ToolMarkersLowerCase()
    ensures IsLowerCase("tool_use") && IsLowerCase("tool_result")
  {
    assert IsLowerCase("tool_use");
  }

  /** Every skip marker is written in lower case. */
  lemma SkipMarkersLowerCase()
    ensures forall m :: m in Markers.skip ==> IsLowerCase(m)
  {
    ShellMarkersLowerCase();
    SnapshotMarkerLowerCase();
    ToolMarkersLowerCase();
  }

  /** With lower-case skip markers, the original-case test in the skip pass never
      finds a marker that the lowered test misses. */
  lemma SkipHitIsCaseFolded(lists: MarkerLists, content: string)
    requires forall m :: m in lists.skip ==> IsLowerCase(m)
    ensures SkipHit(lists, content) <==> exists m :: m in lists.skip && Contains(Lower(content), m)
  {
    if SkipHit(lists, content) {
      var m :| m in lists.skip && (Contains(Lower(content), m) || Contains(content, m));
      if Contains(content, m) {
        ContainsLowered(content, m);
      }
    }
  }

  /** Matching is case-insensitive when the skip markers are in lower case:
      lowering the text first never changes the score. */
  lemma CaseInsensitiveWith(lists: MarkerLists, content: string, role: string)
    requires forall m :: m in lists.skip ==> IsLowerCase(m)
    ensures ClassifyWith(lists, Lower(content), role) == ClassifyWith(lists, content, role)
  {
    ClassifyMeaning(lists, content, role);
    ClassifyMeaning(lists, Lower(content), role);
    LowerIdempotent(content);
    SkipHitIsCaseFolded(lists, content);
    SkipHitIsCaseFolded(lists, Lower(content));
    assert HighHit(lists, Lower(content)) == HighHit(lists, content);
    assert LowHit(lists, Lower(content)) == LowHit(lists, content);
  }

  /** The source's own policy is case-insensitive. */
  lemma CaseInsensitive(content: string, role: string)
    ensures Classify(Lower(content), role) == Classify(content, role)
  {
    SkipMarkersLowerCase();
    CaseInsensitiveWith(Markers, content, role);
  }

  /** Only the unmarked default depends on the role. */
  lemma RoleMattersOnlyUnmarked(lists: MarkerLists, content: string, role1: string, role2: string)
    requires ClassifyWith(lists, content, role1) != ClassifyWith(lists, content, role2)
    ensures !SkipHit(lists, content) && !HighHit(lists, content) && !LowHit(lists, content)
    ensures (role1 == "user") != (role2 == "user")
  {
    ClassifyMeaning(lists, content, role1);
    ClassifyMeaning(lists, content, role2);
  }
}
