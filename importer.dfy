/** The line loop of `import_logs`: each decoded line is dropped, skipped or
    turned into a memory record. In a real run the event time of a record is
    computed next and the store is called; both happen inside one `try`, so
    a timestamp that cannot be turned into an event time, or a failed store
    call, is counted as skipped and the loop goes on. A dry run does neither.
    Two oracles stand for what the model cannot see: `parses(iso)` says
    whether `datetime.fromisoformat` accepts `iso`, and `accepts(k)` whether
    the k-th call to the store (counting from 0) succeeds. */
module Importer {
  import opened Wrappers
  import opened Text
  import opened Importance
  import opened SessionLog

  /** A turn that reaches the write step: the memory body, the score and the
      raw `timestamp` value (None when the key is absent). */
  datatype Record = Record(body: string, importance: int, valence: int, stamp: Option<Stamp>)

  /** The arguments of one `create_episodic_memory` call. */
  datatype Call = Call(body: string, importance: int, valence: int, eventTime: EventTime)

  /** What the loop does with one line before any write: drop it uncounted,
      count it as skipped, or write a record. */
  datatype LineOutcome = Ignored | Skipped | Write(record: Record)

  /** Shorter texts are acknowledgement noise. */
  const MinChars := 10

  /** The decision the loop body takes for one line, up to the write, under the
      given marker lists; the importer itself always uses `Markers`. */
  function Triage(lists: MarkerLists, e: Entry): LineOutcome {
    if !IsTurn(e) then Ignored
    else
      var role := RoleOf(e);
      var content := TurnText(e);
      if |content| == 0 || |content| < MinChars then Skipped
      else
        var score := ClassifyWith(lists, content, role);
        if score.importance < DiscardBelow then Skipped
        else Write(Record(MemoryBody(role, content), score.importance, score.valence, e.timestamp))
  }

  /** What the decision for a line means: only lines of type "user" or
      "assistant" are counted; a turn shorter than ten characters is skipped;
      a longer one is written exactly when it has no skip marker; and the
      record carries the labelled, truncated text, the score of the FULL
      text (so a marker beyond the truncation point still counts) and the
      line's timestamp. */
  lemma TriageMeaning(lists: MarkerLists, e: Entry)
    ensures Triage(lists, e).Ignored? <==> !IsTurn(e)
    ensures IsTurn(e) && |TurnText(e)| < MinChars ==> Triage(lists, e) == Skipped
    ensures IsTurn(e) && |TurnText(e)| >= MinChars ==> (Triage(lists, e).Write? <==> !SkipHit(lists, TurnText(e)))
    ensures Triage(lists, e).Write? ==>
              Triage(lists, e).record.body == MemoryBody(RoleOf(e), TurnText(e)) &&
              Score(Triage(lists, e).record.importance, Triage(lists, e).record.valence) == ClassifyWith(lists, TurnText(e), RoleOf(e)) &&
              Triage(lists, e).record.stamp == e.timestamp
  {
    ClassifyMeaning(lists, TurnText(e), RoleOf(e));
  }

  /** The decision for every line, in order. */
  function Outcomes(lists: MarkerLists, lines: seq<Entry>): (os: seq<LineOutcome>)
    ensures |os| == |lines|
    decreases |lines|
  {
    if |lines| == 0 then []
    else Outcomes(lists, lines[..|lines| - 1]) + [Triage(lists, lines[|lines| - 1])]
  }

  /** The records that reach the write step, in input order. */
  function Written(os: seq<LineOutcome>): seq<Record>
    decreases |os|
  {
    if |os| == 0 then []
    else Written(os[..|os| - 1]) + (if os[|os| - 1].Write? then [os[|os| - 1].record] else [])
  }

  /** The store call a record leads to in a real run, or None when its event
      time raises before the call. */
  function CallOf(r: Record, parses: string -> bool): Option<Call> {
    match EventTimeOf(r.stamp, parses)
    case None => None
    case Some(t) => Some(Call(r.body, r.importance, r.valence, t))
  }

  /** The store call of one outcome, if it leads to one. */
  function CallsOf(o: LineOutcome, parses: string -> bool): seq<Call> {
    if o.Write? && CallOf(o.record, parses).Some? then [CallOf(o.record, parses).value] else []
  }

  /** The store calls of a real run, in input order. */
  function Calls(os: seq<LineOutcome>, parses: string -> bool): seq<Call>
    decreases |os|
  {
    if |os| == 0 then []
    else Calls(os[..|os| - 1], parses) + CallsOf(os[|os| - 1], parses)
  }

  /** Every record that reaches the write step has an event time. */
  ghost predicate AllParsable(os: seq<LineOutcome>, parses: string -> bool) {
    forall i :: 0 <= i < |os| && os[i].Write? ==> CallOf(os[i].record, parses).Some?
  }

  /** Each store call belongs to a written record, and the calls are as many as
      the written records exactly when every one of them has an event time. */
  lemma {:induction false} CallsCount(os: seq<LineOutcome>, parses: string -> bool)
    ensures |Calls(os, parses)| <= |Written(os)|
    ensures AllParsable(os, parses) <==> |Calls(os, parses)| == |Written(os)|
    decreases |os|
  {
    if |os| > 0 {
      var init, last := os[..|os| - 1], os[|os| - 1];
      CallsCount(init, parses);
      assert forall i :: 0 <= i < |init| ==> init[i] == os[i];
      if AllParsable(init, parses) && (last.Write? ==> CallOf(last.record, parses).Some?) {
        assert AllParsable(os, parses);
      } else if !AllParsable(init, parses) {
        var i :| 0 <= i < |init| && init[i].Write? && CallOf(init[i].record, parses).None?;
        assert os[i] == init[i];
      }
    }
  }

  /** Lines counted as skipped before the write step. */
  function Rejected(os: seq<LineOutcome>): nat
    decreases |os|
  {
    if |os| == 0 then 0
    else Rejected(os[..|os| - 1]) + (if os[|os| - 1].Skipped? then 1 else 0)
  }

  /** Lines the loop does not drop uncounted. */
  function Turns(os: seq<LineOutcome>): nat
    decreases |os|
  {
    if |os| == 0 then 0
    else Turns(os[..|os| - 1]) + (if os[|os| - 1].Ignored? then 0 else 1)
  }

  /** Every turn either reaches the write step or is rejected before it. */
  lemma {:induction false} TurnsPartition(os: seq<LineOutcome>)
    ensures |Written(os)| + Rejected(os) == Turns(os)
    decreases |os|
  {
    if |os| > 0 {
      TurnsPartition(os[..|os| - 1]);
    }
  }

  /** Lines whose type is "user" or "assistant". */
  function TurnLines(lines: seq<Entry>): nat
    decreases |lines|
  {
    if |lines| == 0 then 0
    else TurnLines(lines[..|lines| - 1]) + (if IsTurn(lines[|lines| - 1]) then 1 else 0)
  }

  /** The lines the loop counts are exactly those of type "user" or "assistant":
      malformed and other-typed lines are dropped uncounted. */
  lemma {:induction false} CountedLinesAreTurns(lists: MarkerLists, lines: seq<Entry>)
    ensures Turns(Outcomes(lists, lines)) == TurnLines(lines)
    decreases |lines|
  {
    if |lines| > 0 {
      var init := lines[..|lines| - 1];
      CountedLinesAreTurns(lists, init);
      TriageMeaning(lists, lines[|lines| - 1]);
    }
  }

  /** How many of the first `n` store calls succeed. */
  function Accepted(n: nat, accepts: nat -> bool): (k: nat)
    ensures k <= n
  {
    if n == 0 then 0 else Accepted(n - 1, accepts) + (if accepts(n - 1) then 1 else 0)
  }

  datatype Counts = Counts(imported: nat, skipped: nat)

  /** The counters after the loop: a dry run imports every record that reaches
      the write step; a real run imports only the store calls that succeed, and
      the records whose event time raises or whose call fails join the skipped
      lines. */
  function Tally(os: seq<LineOutcome>, dryRun: bool, parses: string -> bool, accepts: nat -> bool): (c: Counts)
    ensures c.imported + c.skipped == Turns(os)
    ensures c.imported <= |Written(os)|
    ensures !dryRun ==> c.imported <= |Calls(os, parses)|
  {
    TurnsPartition(os);
    CallsCount(os, parses);
    var n := |Written(os)|;
    var ok := if dryRun then n else Accepted(|Calls(os, parses)|, accepts);
    Counts(ok, Rejected(os) + (n - ok))
  }

  /** One more line changes the counters by the step the loop body takes: a
      dropped line changes nothing, and a turn adds exactly one to exactly one
      counter: to `imported` when it is written (always, in a dry run), to
      `skipped` when it is rejected, its event time raises or its store call
      fails. */
  lemma TallyStep(os: seq<LineOutcome>, o: LineOutcome, dryRun: bool, parses: string -> bool, accepts: nat -> bool)
    ensures var before, after := Tally(os, dryRun, parses, accepts), Tally(os + [o], dryRun, parses, accepts);
            match o
            case Ignored => after == before
            case Skipped => after == Counts(before.imported, before.skipped + 1)
            case Write(r) =>
              if dryRun || (CallOf(r, parses).Some? && accepts(|Calls(os, parses)|)) then
                after == Counts(before.imported + 1, before.skipped)
              else after == Counts(before.imported, before.skipped + 1)
  {
    assert (os + [o])[..|os|] == os;
  }

  /** `message.get("content", "")`, with a block list flattened. */
  method ReadContent(message: Message) returns (content: string)
    ensures content == MessageText(message)
  {
    match message.content.GetOr(Plain("")) {
      case Plain(s) => content := s;
      case Blocks(bs) => content := FlattenBlocks(bs);
      case Null => content := "";
    }
  }

  /** The body of the loop up to the write: type filter, block flattening,
      length filter, scoring, discard threshold, label and truncation. */
  method PrepareLine(entry: Entry) returns (outcome: LineOutcome)
    ensures outcome == Triage(Markers, entry)
  {
    if !(entry.Decoded? && (entry.kind == Some("user") || entry.kind == Some("assistant"))) {
      return Ignored;
    }
    var message := entry.message.GetOr(Message(None, None));
    var role := message.role.GetOr("");
    var content := ReadContent(message);
    assert content == TurnText(entry) && role == RoleOf(entry);
    if |content| == 0 || |content| < MinChars {
      return Skipped;
    }
    var score := Classify(content, role);
    if score.importance < DiscardBelow {
      return Skipped;
    }
    var prefix := if role == "user" then UserLabel else AssistantLabel;
    if |content| > MaxChars {
      content := content[..MaxChars] + TruncationMarker;
    }
    outcome := Write(Record(prefix + content, score.importance, score.valence, entry.timestamp));
  }

  /** The decisions for one more line extend those before it. */
  lemma OutcomesStep(lists: MarkerLists, lines: seq<Entry>, i: nat)
    requires i < |lines|
    ensures Outcomes(lists, lines[..i + 1]) == Outcomes(lists, lines[..i]) + [Triage(lists, lines[i])]
  {
    assert lines[..i + 1][..i] == lines[..i];
  }

  /** One more outcome adds its store call, if any, after the earlier ones. */
  lemma CallsStep(os: seq<LineOutcome>, o: LineOutcome, parses: string -> bool)
    ensures Calls(os + [o], parses) == Calls(os, parses) + CallsOf(o, parses)
  {
    assert (os + [o])[..|os|] == os;
  }

  /** The loop of `import_logs` over already decoded lines. `sent` lists the
      calls made to the store, in call order. */
  method ImportLogs(lines: seq<Entry>, dryRun: bool, parses: string -> bool, accepts: nat -> bool)
    returns (imported: nat, skipped: nat, sent: seq<Call>)
    ensures Counts(imported, skipped) == Tally(Outcomes(Markers, lines), dryRun, parses, accepts)
    ensures sent == if dryRun then [] else Calls(Outcomes(Markers, lines), parses)
    ensures imported + skipped == TurnLines(lines)
  {
    imported, skipped, sent := 0, 0, [];
    ghost var os: seq<LineOutcome> := [];
    var i := 0;
    while i < |lines|
      invariant 0 <= i <= |lines|
      invariant os == Outcomes(Markers, lines[..i])
      invariant Counts(imported, skipped) == Tally(os, dryRun, parses, accepts)
      invariant sent == if dryRun then [] else Calls(os, parses)
    {
      var outcome := PrepareLine(lines[i]);
      OutcomesStep(Markers, lines, i);
      TallyStep(os, outcome, dryRun, parses, accepts);
      CallsStep(os, outcome, parses);
      match outcome {
        case Ignored =>
        case Skipped =>
          skipped := skipped + 1;
        case Write(record) =>
          if dryRun {
            imported := imported + 1;
          } else {
            var eventTime := EventTimeOf(record.stamp, parses);
            if eventTime.None? {
              skipped := skipped + 1;
            } else {
              var ok := accepts(|sent|);
              sent := sent + [Call(record.body, record.importance, record.valence, eventTime.value)];
              if ok {
                imported := imported + 1;
              } else {
                skipped := skipped + 1;
              }
            }
          }
      }
      os := os + [outcome];
      i := i + 1;
    }
    assert lines[..i] == lines;
    CountedLinesAreTurns(Markers, lines);
  }

  /** The store calls of a concatenated log are those of each part, in order. */
  lemma {:induction false} CallsAppend(a: seq<LineOutcome>, b: seq<LineOutcome>, parses: string -> bool)
    ensures Calls(a + b, parses) == Calls(a, parses) + Calls(b, parses)
    decreases |b|
  {
    if |b| == 0 {
      assert a + b == a;
    } else {
      var b' := b[..|b| - 1];
      assert (a + b)[..|a + b| - 1] == a + b';
      CallsAppend(a, b', parses);
    }
  }

  /** Records reach the store in input order: the call for line `i` is store
      call number |Calls(os[..i])|, after those of every earlier line. */
  lemma CallOrder(os: seq<LineOutcome>, parses: string -> bool, i: nat)
    requires i < |os| && os[i].Write? && CallOf(os[i].record, parses).Some?
    ensures |Calls(os[..i], parses)| < |Calls(os, parses)|
    ensures Calls(os, parses)[|Calls(os[..i], parses)|] == CallOf(os[i].record, parses).value
    ensures Calls(os[..i], parses) <= Calls(os, parses)
  {
    var upTo, after := os[..i + 1], os[i + 1..];
    assert upTo[..i] == os[..i];
    assert Calls(upTo, parses) == Calls(os[..i], parses) + [CallOf(os[i].record, parses).value];
    assert os == upTo + after;
    CallsAppend(upTo, after, parses);
  }

  lemma {:induction false} AcceptedMonotone(m: nat, n: nat, accepts: nat -> bool)
    requires m <= n
    ensures Accepted(m, accepts) <= Accepted(n, accepts)
    ensures Accepted(n, accepts) - Accepted(m, accepts) <= n - m
    decreases n
  {
    if m < n {
      AcceptedMonotone(m, n - 1, accepts);
    }
  }

  /** Neither counter ever decreases as the loop advances. */
  lemma {:induction false} CountersNeverDecrease(os: seq<LineOutcome>, k: nat, dryRun: bool, parses: string -> bool, accepts: nat -> bool)
    requires k <= |os|
    ensures Tally(os[..k], dryRun, parses, accepts).imported <= Tally(os, dryRun, parses, accepts).imported
    ensures Tally(os[..k], dryRun, parses, accepts).skipped <= Tally(os, dryRun, parses, accepts).skipped
    decreases |os| - k
  {
    if k < |os| {
      var last := os[..|os| - 1];
      assert os[..k] == last[..k];
      CountersNeverDecrease(last, k, dryRun, parses, accepts);
      assert os == last + [os[|os| - 1]];
      TallyStep(last, os[|os| - 1], dryRun, parses, accepts);
    } else {
      assert os[..k] == os;
    }
  }

  /** A store that differs from another only in failing call `j` that the other
      accepts. */
  ghost predicate FailsOnlyAt(failing: nat -> bool, accepts: nat -> bool, j: nat) {
    !failing(j) && accepts(j) && forall k: nat :: k != j ==> failing(k) == accepts(k)
  }

  lemma {:induction false} AcceptedFailOne(n: nat, accepts: nat -> bool, failing: nat -> bool, j: nat)
    requires FailsOnlyAt(failing, accepts, j)
    ensures Accepted(n, failing) == if j < n then Accepted(n, accepts) - 1 else Accepted(n, accepts)
    decreases n
  {
    if n > 0 {
      AcceptedFailOne(n - 1, accepts, failing, j);
      if j < n - 1 {
        AcceptedMonotone(j + 1, n - 1, accepts);
        assert Accepted(j + 1, accepts) >= 1;
      }
    }
  }

  /** One failed store call is isolated: the same calls reach the store and
      the only change in the counters is that one record moves from imported
      to skipped. */
  lemma SinkFailureIsolated(os: seq<LineOutcome>, parses: string -> bool, accepts: nat -> bool, failing: nat -> bool, j: nat)
    requires FailsOnlyAt(failing, accepts, j) && j < |Calls(os, parses)|
    ensures Tally(os, false, parses, failing).imported == Tally(os, false, parses, accepts).imported - 1
    ensures Tally(os, false, parses, failing).skipped == Tally(os, false, parses, accepts).skipped + 1
  {
    AcceptedFailOne(|Calls(os, parses)|, accepts, failing, j);
  }

  /** A store that accepts every call. */
  function AlwaysAccept(k: nat): bool {
    true
  }

  lemma {:induction false} AcceptedAll(n: nat)
    ensures Accepted(n, AlwaysAccept) == n
  {
    if n > 0 {
      AcceptedAll(n - 1);
    }
  }

  /** When every written record has an event time, a dry run reports the
      counts of a real run in which every store call succeeds. */
  lemma DryRunMatchesAllAccepted(os: seq<LineOutcome>, parses: string -> bool, accepts: nat -> bool)
    requires AllParsable(os, parses)
    ensures Tally(os, true, parses, accepts) == Tally(os, false, parses, AlwaysAccept)
  {
    CallsCount(os, parses);
    AcceptedAll(|Calls(os, parses)|);
  }

  /** The event time is computed only in a real run, so a record whose event
      time raises makes a real run import fewer lines than a dry run, whatever
      the store does. */
  lemma DryRunDiverges(os: seq<LineOutcome>, parses: string -> bool, accepts: nat -> bool)
    requires !AllParsable(os, parses)
    ensures Tally(os, false, parses, accepts).imported < Tally(os, true, parses, accepts).imported
  {
    CallsCount(os, parses);
  }

  /** A single written turn whose timestamp cannot be turned into an event
      time: a dry run imports it, a real run skips it without calling the
      store. */
  lemma UnparsableStampSkipped(os: seq<LineOutcome>, r: Record, parses: string -> bool, accepts: nat -> bool)
    requires os == [Write(r)] && EventTimeOf(r.stamp, parses).None?
    ensures Calls(os, parses) == []
    ensures Tally(os, true, parses, accepts) == Counts(1, 0)
    ensures Tally(os, false, parses, accepts) == Counts(0, 1)
  {
    assert os[..0] == [];
    assert Written(os) == [r] && Rejected(os) == 0;
  }

  /** The length filter is inclusive at ten characters: a nine-character turn is
      skipped, a ten-character one is kept unless it carries a skip marker. */
  lemma LengthBoundary(lists: MarkerLists, role: string, kind: string, s: string, ts: Option<Stamp>)
    requires kind == "user" || kind == "assistant"
    requires |s| == 9 || (|s| == 10 && !SkipHit(lists, s))
    ensures var e := Decoded(Some(kind), Some(Message(Some(role), Some(Plain(s)))), ts);
            if |s| == 9 then Triage(lists, e) == Skipped else Triage(lists, e).Write?
  {
    TriageMeaning(lists, Decoded(Some(kind), Some(Message(Some(role), Some(Plain(s)))), ts));
  }

  /** A user turn of ordinary length with a high marker and no skip marker is
      written whole, under the user label, with the relational score. */
  lemma RelationalUserTurnWritten(lists: MarkerLists, e: Entry, text: string)
    requires IsTurn(e) && RoleOf(e) == "user" && TurnText(e) == text
    requires MinChars <= |text| <= MaxChars
    requires !SkipHit(lists, text) && HighHit(lists, text)
    ensures Triage(lists, e) == Write(Record(UserLabel + text, 85, 60, e.timestamp))
  {
    TriageMeaning(lists, e);
    ClassifyMeaning(lists, text, "user");
  }

  /** Text holding "thank you" in any letter case ("Thank you", "THANK YOU"),
      that is, whose lowered form holds "thank you", has the high marker
      "thank" when the high list carries it, as the importer's own list does. */
  lemma ThanksIsRelational(lists: MarkerLists, thanks: string)
    requires "thank" in lists.high && Contains(Lower(thanks), "thank you")
    ensures HighHit(lists, thanks)
  {
    assert StartsWith("thank you", "thank");
    ContainsWithin(Lower(thanks), "thank you", "thank");
  }

  lemma OutcomesOfThree(lists: MarkerLists, lines: seq<Entry>, o0: LineOutcome, o1: LineOutcome, o2: LineOutcome)
    requires |lines| == 3
    requires Triage(lists, lines[0]) == o0 && Triage(lists, lines[1]) == o1 && Triage(lists, lines[2]) == o2
    ensures Outcomes(lists, lines) == [o0, o1, o2]
  {
    assert lines[..0] == [];
    OutcomesStep(lists, lines, 0);
    OutcomesStep(lists, lines, 1);
    OutcomesStep(lists, lines, 2);
    assert lines[..3] == lines;
  }

  lemma Tallied(os: seq<LineOutcome>, r: Record, parses: string -> bool)
    requires os == [Write(r), Skipped, Skipped] && CallOf(r, parses).Some?
    ensures Written(os) == [r] && Rejected(os) == 2 && Turns(os) == 3
    ensures Calls(os, parses) == [CallOf(r, parses).value]
    ensures Tally(os, false, parses, AlwaysAccept) == Counts(1, 2) && Tally(os, true, parses, AlwaysAccept) == Counts(1, 2)
  {
    assert os[..2] == [Write(r), Skipped];
    assert os[..2][..1] == [Write(r)];
    assert os[..2][..1][..0] == [];
    assert Written(os[..2][..1]) == [r] && Rejected(os[..2][..1]) == 0 && Turns(os[..2][..1]) == 1;
    assert Written(os[..2]) == [r] && Rejected(os[..2]) == 1 && Turns(os[..2]) == 2;
    assert Calls(os[..2][..1], parses) == [CallOf(r, parses).value];
    assert Calls(os[..2], parses) == [CallOf(r, parses).value];
    AcceptedAll(1);
  }

  /** A turn shorter than ten characters is skipped, whatever it says. */
  lemma ShortTurnSkipped(lists: MarkerLists, e: Entry)
    requires IsTurn(e) && |TurnText(e)| < MinChars
    ensures Triage(lists, e) == Skipped
  {
    TriageMeaning(lists, e);
  }

  /** A turn of ordinary length holding a skip marker is skipped, whatever its role. */
  lemma MarkedTurnSkipped(lists: MarkerLists, e: Entry, marker: string)
    requires IsTurn(e) && |TurnText(e)| >= MinChars
    requires marker in lists.skip && Contains(TurnText(e), marker)
    ensures Triage(lists, e) == Skipped
  {
    TriageMeaning(lists, e);
  }

  /** Scoring sees the whole text: a skip marker lying wholly beyond the
      truncation point still discards a long turn. */
  lemma MarkerBeyondTruncation(lists: MarkerLists, e: Entry, marker: string)
    requires IsTurn(e) && |TurnText(e)| > MaxChars
    requires marker in lists.skip && Contains(TurnText(e)[MaxChars..], marker)
    ensures Triage(lists, e) == Skipped
  {
    ContainsInSuffix(TurnText(e), MaxChars, marker);
    MarkedTurnSkipped(lists, e, marker);
  }

  /** A line whose message has the same role as its type and a plain string content. */
  function PlainTurn(role: string, text: string): (e: Entry)
    ensures e.Decoded? && e.timestamp == None
    ensures RoleOf(e) == role && TurnText(e) == text
    ensures IsTurn(e) <==> role == "user" || role == "assistant"
  {
    Decoded(Some(role), Some(Message(Some(role), Some(Plain(text)))), None)
  }

  /** The decisions for the three lines of the scenario below. */
  lemma ScenarioOutcomes(lists: MarkerLists, thanks: string, shell: string, short: string)
    requires "thank" in lists.high && "<bash-" in lists.skip
    requires Contains(Lower(thanks), "thank you") && !SkipHit(lists, thanks) && MinChars <= |thanks| <= MaxChars
    requires Contains(shell, "<bash-") && |shell| >= MinChars
    requires |short| < MinChars
    ensures Outcomes(lists, [PlainTurn("user", thanks), PlainTurn("assistant", shell), PlainTurn("user", short)])
         == [Write(Record(UserLabel + thanks, 85, 60, None)), Skipped, Skipped]
  {
    var lines := [PlainTurn("user", thanks), PlainTurn("assistant", shell), PlainTurn("user", short)];
    ThanksIsRelational(lists, thanks);
    RelationalUserTurnWritten(lists, lines[0], thanks);
    MarkedTurnSkipped(lists, lines[1], "<bash-");
    ShortTurnSkipped(lists, lines[2]);
    OutcomesOfThree(lists, lines, Write(Record(UserLabel + thanks, 85, 60, None)), Skipped, Skipped);
  }

  /** The counters and store calls for the three lines of the scenario below. */
  lemma ScenarioCounts(lists: MarkerLists, thanks: string, shell: string, short: string, parses: string -> bool)
    requires "thank" in lists.high && "<bash-" in lists.skip
    requires Contains(Lower(thanks), "thank you") && !SkipHit(lists, thanks) && MinChars <= |thanks| <= MaxChars
    requires Contains(shell, "<bash-") && |shell| >= MinChars
    requires |short| < MinChars
    ensures var os := Outcomes(lists, [PlainTurn("user", thanks), PlainTurn("assistant", shell), PlainTurn("user", short)]);
            Tally(os, false, parses, AlwaysAccept) == Counts(1, 2) &&
            Tally(os, true, parses, AlwaysAccept) == Counts(1, 2) &&
            Written(os) == [Record(UserLabel + thanks, 85, 60, None)] &&
            Calls(os, parses) == [Call(UserLabel + thanks, 85, 60, Now)]
  {
    ScenarioOutcomes(lists, thanks, shell, short);
    Tallied(Outcomes(lists, [PlainTurn("user", thanks), PlainTurn("assistant", shell), PlainTurn("user", short)]),
            Record(UserLabel + thanks, 85, 60, None), parses);
  }

  /** A user line of thanks, an assistant line with a shell tag, and a user line
      shorter than ten characters: one record is imported, with the relational
      score and the user label, and the other two turns are skipped, in a real
      run and in a dry run alike. */
  lemma ThreeLineScenario(thanks: string, shell: string, short: string, parses: string -> bool)
    requires Contains(Lower(thanks), "thank you") && !SkipHit(Markers, thanks) && MinChars <= |thanks| <= MaxChars
    requires Contains(shell, "<bash-") && |shell| >= MinChars
    requires |short| < MinChars
    ensures var os := Outcomes(Markers, [PlainTurn("user", thanks), PlainTurn("assistant", shell), PlainTurn("user", short)]);
            Tally(os, false, parses, AlwaysAccept) == Counts(1, 2) &&
            Tally(os, true, parses, AlwaysAccept) == Counts(1, 2) &&
            Written(os) == [Record(UserLabel + thanks, 85, 60, None)] &&
            Calls(os, parses) == [Call(UserLabel + thanks, 85, 60, Now)]
  {
    assert "thank" in Markers.high && "<bash-" in Markers.skip;
    ScenarioCounts(Markers, thanks, shell, short, parses);
  }
}
