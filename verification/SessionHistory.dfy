/**
 The message log of a persistent sub-agent session and its task boundaries: opening and
 closing a task, and the eager trim that compresses completed tasks.
 */
module SessionHistory {
  import opened Common

  datatype Role = User | Assistant | Tool

  datatype Message = Message(role: Role, text: string, callsTools: bool)

  /** `end` is left out while the task is in flight. */
  datatype Boundary = Boundary(start: int, end: Option<int>)

  datatype History = History(messages: seq<Message>, boundaries: seq<Boundary>)

  const ABORT_STUB := Message(Assistant, "[task aborted before producing a final answer]", false)

  /** An assistant message without tool calls: what a finished task reports. */
  predicate IsReport(m: Message) { m.role == Assistant && !m.callsTools }

  // ---- find_final_assistant ----

  predicate HasReport(messages: seq<Message>, lo: int, hi: int) {
    exists k :: 0 <= k < |messages| && lo <= k <= hi && IsReport(messages[k])
  }

  /** `k` is the last report between `lo` and `hi`. */
  predicate LastReport(messages: seq<Message>, lo: int, hi: int, k: int) {
    && 0 <= k < |messages| && lo <= k <= hi && IsReport(messages[k])
    && forall j :: k < j < |messages| && j <= hi ==> !IsReport(messages[j])
  }

  /** The last report at or before `hi`, looking back no further than `lo`. */
  function FinalReport(messages: seq<Message>, lo: int, hi: int): Option<Message>
    decreases hi - lo
  {
    if hi < lo then None
    else if 0 <= hi < |messages| && IsReport(messages[hi]) then Some(messages[hi])
    else FinalReport(messages, lo, hi - 1)
  }

  lemma {:induction false} FinalReportIsLast(messages: seq<Message>, lo: int, hi: int)
    ensures FinalReport(messages, lo, hi).Some? <==> HasReport(messages, lo, hi)
    ensures forall k :: LastReport(messages, lo, hi, k) ==> FinalReport(messages, lo, hi) == Some(messages[k])
    ensures FinalReport(messages, lo, hi).Some? ==> IsReport(FinalReport(messages, lo, hi).value)
    decreases hi - lo
  {
    if hi >= lo && !(0 <= hi < |messages| && IsReport(messages[hi])) {
      FinalReportIsLast(messages, lo, hi - 1);
      forall k | LastReport(messages, lo, hi, k)
        ensures LastReport(messages, lo, hi - 1, k)
      {}
    }
  }

  method FindFinalAssistant(messages: seq<Message>, start: nat, end: int) returns (found: Option<Message>)
    ensures found == FinalReport(messages, start, end)
    ensures found.Some? <==> HasReport(messages, start, end)
    ensures found.Some? ==> found.value.role == Assistant && !found.value.callsTools
    ensures found.None? ==>
              forall k :: start <= k <= end && k < |messages| ==>
                            messages[k].role != Assistant || messages[k].callsTools
  {
    FinalReportIsLast(messages, start, end);
    var j := Min(end, |messages| - 1);
    ReportsAreInRange(messages, start, end);
    while j >= start
      invariant j < |messages|
      invariant FinalReport(messages, start, j) == FinalReport(messages, start, end)
      decreases j
    {
      if messages[j].role == Assistant && !messages[j].callsTools {
        return Some(messages[j]);
      }
      j := j - 1;
    }
    return None;
  }

  lemma {:induction false} ReportsAreInRange(messages: seq<Message>, lo: int, hi: int)
    ensures FinalReport(messages, lo, hi) == FinalReport(messages, lo, Min(hi, |messages| - 1))
    decreases hi - lo
  {
    if hi >= |messages| && hi >= lo {
      ReportsAreInRange(messages, lo, hi - 1);
    }
  }

  // ---- Task life cycle ----

  function OpenTask(h: History, prompt: string): History {
    History(h.messages + [Message(User, prompt, false)],
            h.boundaries + [Boundary(|h.messages|, None)])
  }

  function Last(h: History): Boundary
    requires h.boundaries != []
  {
    h.boundaries[|h.boundaries| - 1]
  }

  /** Appends `stub` unless the open task already has a report, then closes its boundary. */
  function CloseWith(h: History, stub: Message): History
    requires h.boundaries != []
  {
    var start := Last(h).start;
    var messages := if FinalReport(h.messages, start + 1, |h.messages| - 1).Some? then h.messages
                    else h.messages + [stub];
    History(messages, h.boundaries[|h.boundaries| - 1 := Boundary(start, Some(Max(start, |messages| - 1)))])
  }

  /** A run that returned: its turns are absorbed and the boundary closed. */
  function Absorb(h: History, turns: seq<Message>, stub: string): History
    requires h.boundaries != []
  {
    CloseWith(h.(messages := h.messages + turns), Message(Assistant, stub, false))
  }

  /** A run that was cancelled, timed out or raised: nothing happens to a closed boundary. */
  function CloseAborted(h: History): History {
    if h.boundaries == [] || Last(h).end.Some? then h else CloseWith(h, ABORT_STUB)
  }

  // ---- The boundary invariant ----

  ghost predicate ClosedOk(messages: seq<Message>, b: Boundary) {
    b.end.Some? ==>
      && b.start < b.end.value < |messages|
      && HasReport(messages, b.start + 1, b.end.value)
  }

  ghost predicate Before(a: Boundary, b: Boundary) {
    a.start < b.start && (a.end.Some? ==> a.end.value < b.start)
  }

  ghost predicate Valid(h: History) {
    && (forall i :: 0 <= i < |h.boundaries| ==>
                      0 <= h.boundaries[i].start < |h.messages|
                      && h.messages[h.boundaries[i].start].role == User
                      && ClosedOk(h.messages, h.boundaries[i]))
    && (forall i, j :: 0 <= i < j < |h.boundaries| ==> Before(h.boundaries[i], h.boundaries[j]))
  }

  lemma OpenValid(h: History, prompt: string)
    requires Valid(h)
    ensures Valid(OpenTask(h, prompt)) && Last(OpenTask(h, prompt)).end == None
  {
    var h' := OpenTask(h, prompt);
    forall i | 0 <= i < |h'.boundaries|
      ensures 0 <= h'.boundaries[i].start < |h'.messages|
              && h'.messages[h'.boundaries[i].start].role == User && ClosedOk(h'.messages, h'.boundaries[i])
    {
      if i < |h.boundaries| {
        ReportSurvives(h.messages, h'.messages, h.boundaries[i]);
      }
    }
  }

  lemma ReportSurvives(messages: seq<Message>, more: seq<Message>, b: Boundary)
    requires ClosedOk(messages, b) && messages <= more
    ensures ClosedOk(more, b)
  {
    if b.end.Some? {
      var k :| 0 <= k < |messages| && b.start + 1 <= k <= b.end.value && IsReport(messages[k]);
      assert more[k] == messages[k];
    }
  }

  /** Closing: the last boundary gets a report within its span. */
  lemma ClosedByStub(h: History, stub: Message)
    requires h.boundaries != [] && IsReport(stub) && 0 <= Last(h).start < |h.messages|
    ensures var h' := CloseWith(h, stub);
            && h.messages <= h'.messages
            && h'.boundaries == h.boundaries[|h.boundaries| - 1 := Boundary(Last(h).start, Some(|h'.messages| - 1))]
            && ClosedOk(h'.messages, Last(h'))
  {
    ReportOrStub(h.messages, Last(h).start, stub);
    var h' := CloseWith(h, stub);
    assert Last(h') == Boundary(Last(h).start, Some(|h'.messages| - 1));
  }

  lemma ReportOrStub(messages: seq<Message>, start: int, stub: Message)
    requires IsReport(stub) && 0 <= start < |messages|
    ensures var found := FinalReport(messages, start + 1, |messages| - 1).Some?;
            var all := if found then messages else messages + [stub];
            HasReport(all, start + 1, |all| - 1) && start < |all| - 1
  {
    FinalReportIsLast(messages, start + 1, |messages| - 1);
    assert (messages + [stub])[|messages|] == stub;
  }

  lemma CloseValid(h: History, stub: Message)
    requires Valid(h) && h.boundaries != [] && IsReport(stub)
    ensures Valid(CloseWith(h, stub))
    ensures Last(CloseWith(h, stub)).end == Some(|CloseWith(h, stub).messages| - 1)
  {
    ClosedByStub(h, stub);
    RewriteLastValid(h, CloseWith(h, stub));
  }

  lemma RewriteLastValid(h: History, h': History)
    requires Valid(h) && h.boundaries != [] && h.messages <= h'.messages
    requires |h'.boundaries| == |h.boundaries| && Last(h').start == Last(h).start
    requires h'.boundaries == h.boundaries[|h.boundaries| - 1 := Last(h')]
    requires ClosedOk(h'.messages, Last(h'))
    ensures Valid(h')
  {
    forall i | 0 <= i < |h'.boundaries|
      ensures 0 <= h'.boundaries[i].start < |h'.messages|
              && h'.messages[h'.boundaries[i].start].role == User && ClosedOk(h'.messages, h'.boundaries[i])
    {
      if i < |h.boundaries| - 1 {
        ReportSurvives(h.messages, h'.messages, h.boundaries[i]);
      }
    }
    forall i, j | 0 <= i < j < |h'.boundaries|
      ensures Before(h'.boundaries[i], h'.boundaries[j])
    {
      assert Before(h.boundaries[i], h.boundaries[j]);
    }
  }

  lemma AppendValid(h: History, turns: seq<Message>)
    requires Valid(h)
    ensures Valid(h.(messages := h.messages + turns))
  {
    forall i | 0 <= i < |h.boundaries|
      ensures ClosedOk(h.messages + turns, h.boundaries[i])
    {
      ReportSurvives(h.messages, h.messages + turns, h.boundaries[i]);
    }
  }

  // ---- Trimming ----

  predicate AnyClosed(bs: seq<Boundary>) {
    exists i :: 0 <= i < |bs| && bs[i].end.Some?
  }

  /** What one task contributes to the trimmed history. */
  function Piece(messages: seq<Message>, b: Boundary): seq<Message> {
    if b.start < 0 || b.start >= |messages| then []
    else if b.end.None? then messages[b.start..]
    else
      var report := FinalReport(messages, b.start + 1, b.end.value);
      [messages[b.start]] + (if report.Some? then [report.value] else [])
  }

  /** Boundaries that point into the log; any other is skipped. */
  function Kept(messages: seq<Message>, bs: seq<Boundary>): seq<Boundary> {
    if bs == [] then []
    else (if 0 <= bs[0].start < |messages| then [bs[0]] else []) + Kept(messages, bs[1..])
  }

  function Pieces(messages: seq<Message>, bs: seq<Boundary>): seq<seq<Message>> {
    seq(|bs|, i requires 0 <= i < |bs| => Piece(messages, bs[i]))
  }

  /** The seed of a session's next run: prompts and reports of completed tasks, all of one in flight. */
  function Trimmed(h: History): seq<Message> {
    if h.boundaries == [] || h.messages == [] || !AnyClosed(h.boundaries) then h.messages
    else Flatten(Pieces(h.messages, Kept(h.messages, h.boundaries)))
  }

  /** New boundaries for pieces laid out one after the other from `offset`. */
  function Placed(parts: seq<seq<Message>>, bs: seq<Boundary>, offset: nat): seq<Boundary>
    requires |parts| == |bs|
    decreases |bs|
  {
    if bs == [] then []
    else [Boundary(offset, if bs[0].end.None? then None else Some(offset + |parts[0]| - 1))]
         + Placed(parts[1..], bs[1..], offset + |parts[0]|)
  }

  function EagerTrim(h: History): History {
    if h.boundaries == [] || h.messages == [] || !AnyClosed(h.boundaries) then h
    else
      var kept := Kept(h.messages, h.boundaries);
      var parts := Pieces(h.messages, kept);
      History(Flatten(parts), Placed(parts, kept, 0))
  }

  method HasCompleted(boundaries: seq<Boundary>) returns (completed: bool)
    ensures completed <==> AnyClosed(boundaries)
  {
    completed := false;
    for i := 0 to |boundaries|
      invariant completed <==> exists k :: 0 <= k < i && boundaries[k].end.Some?
    {
      if boundaries[i].end.Some? {
        completed := true;
      }
    }
  }

  method CutTask(messages: seq<Message>, b: Boundary) returns (piece: seq<Message>)
    requires 0 <= b.start < |messages|
    ensures piece == Piece(messages, b) && piece != []
  {
    if b.end.None? {
      return messages[b.start..];
    }
    piece := [messages[b.start]];
    var report := FindFinalAssistant(messages, b.start + 1, b.end.value);
    if report.Some? {
      piece := piece + [report.value];
    }
  }

  /** After `i` boundaries: `m` is what is built of the messages, the rest is still to come. */
  ghost predicate MessagesSoFar(messages: seq<Message>, bs: seq<Boundary>, i: nat, m: seq<Message>) {
    && i <= |bs|
    && m + Flatten(Pieces(messages, Kept(messages, bs[i..]))) == Flatten(Pieces(messages, Kept(messages, bs)))
  }

  /** The same for the boundaries `b`, which continue at `offset`. */
  ghost predicate BoundariesSoFar(messages: seq<Message>, bs: seq<Boundary>, i: nat, b: seq<Boundary>, offset: nat) {
    && i <= |bs|
    && var rest, all := Kept(messages, bs[i..]), Kept(messages, bs);
       b + Placed(Pieces(messages, rest), rest, offset) == Placed(Pieces(messages, all), all, 0)
  }

  ghost predicate Progress(messages: seq<Message>, bs: seq<Boundary>, i: nat, m: seq<Message>, b: seq<Boundary>) {
    MessagesSoFar(messages, bs, i, m) && BoundariesSoFar(messages, bs, i, b, |m|)
  }

  lemma NextPiece(messages: seq<Message>, bs: seq<Boundary>, i: nat)
    requires i < |bs| && 0 <= bs[i].start < |messages|
    ensures var rest := Kept(messages, bs[i + 1..]);
            && Kept(messages, bs[i..]) == [bs[i]] + rest
            && Pieces(messages, [bs[i]] + rest) == [Piece(messages, bs[i])] + Pieces(messages, rest)
  {
    assert bs[i..][1..] == bs[i + 1..] && bs[i..][0] == bs[i];
    PiecesCons(messages, bs[i], Kept(messages, bs[i + 1..]));
  }

  lemma PiecesCons(messages: seq<Message>, b: Boundary, rest: seq<Boundary>)
    ensures Pieces(messages, [b] + rest) == [Piece(messages, b)] + Pieces(messages, rest)
  {}

  lemma PlaceFirst(part: seq<Message>, parts: seq<seq<Message>>, b: Boundary, bs: seq<Boundary>, offset: nat)
    requires |parts| == |bs|
    ensures Flatten([part] + parts) == part + Flatten(parts)
    ensures Placed([part] + parts, [b] + bs, offset)
            == [Boundary(offset, if b.end.None? then None else Some(offset + |part| - 1))]
               + Placed(parts, bs, offset + |part|)
  {
    assert ([part] + parts)[1..] == parts && ([b] + bs)[1..] == bs;
  }

  lemma MessagesTake(messages: seq<Message>, bs: seq<Boundary>, i: nat, m: seq<Message>)
    requires MessagesSoFar(messages, bs, i, m) && i < |bs| && 0 <= bs[i].start < |messages|
    ensures MessagesSoFar(messages, bs, i + 1, m + Piece(messages, bs[i]))
  {
    var piece, rest := Piece(messages, bs[i]), Kept(messages, bs[i + 1..]);
    NextPiece(messages, bs, i);
    PlaceFirst(piece, Pieces(messages, rest), bs[i], rest, 0);
    Reassociate(m, piece, Flatten(Pieces(messages, rest)));
  }

  lemma BoundariesTake(messages: seq<Message>, bs: seq<Boundary>, i: nat, b: seq<Boundary>, offset: nat)
    requires BoundariesSoFar(messages, bs, i, b, offset) && i < |bs| && 0 <= bs[i].start < |messages|
    ensures var size := |Piece(messages, bs[i])|;
            var moved := Boundary(offset, if bs[i].end.None? then None else Some(offset + size - 1));
            BoundariesSoFar(messages, bs, i + 1, b + [moved], offset + size)
  {
    var piece, rest := Piece(messages, bs[i]), Kept(messages, bs[i + 1..]);
    var moved := Boundary(offset, if bs[i].end.None? then None else Some(offset + |piece| - 1));
    NextPiece(messages, bs, i);
    PlaceFirst(piece, Pieces(messages, rest), bs[i], rest, offset);
    Reassociate(b, [moved], Placed(Pieces(messages, rest), rest, offset + |piece|));
  }

  lemma ProgressTakes(
    messages: seq<Message>, bs: seq<Boundary>, i: nat, m: seq<Message>, b: seq<Boundary>, moved: Boundary)
    requires Progress(messages, bs, i, m, b) && i < |bs| && 0 <= bs[i].start < |messages|
    requires moved == Boundary(|m|, if bs[i].end.None? then None else Some(|m| + |Piece(messages, bs[i])| - 1))
    ensures Progress(messages, bs, i + 1, m + Piece(messages, bs[i]), b + [moved])
  {
    var piece := Piece(messages, bs[i]);
    assert |m + piece| == |m| + |piece|;
    assert MessagesSoFar(messages, bs, i + 1, m + piece) by {
      MessagesTake(messages, bs, i, m);
    }
    assert BoundariesSoFar(messages, bs, i + 1, b + [moved], |m + piece|) by {
      BoundariesTake(messages, bs, i, b, |m|);
    }
  }

  lemma ProgressSkips(messages: seq<Message>, bs: seq<Boundary>, i: nat, m: seq<Message>, b: seq<Boundary>)
    requires Progress(messages, bs, i, m, b) && i < |bs| && !(0 <= bs[i].start < |messages|)
    ensures Progress(messages, bs, i + 1, m, b)
  {
    assert bs[i..][1..] == bs[i + 1..];
    assert Kept(messages, bs[i..]) == Kept(messages, bs[i + 1..]);
  }

  /** The loop of `trim_and_remap_boundaries`, growing both lists together. */
  method TrimAndRemapBoundaries(messages: seq<Message>, boundaries: seq<Boundary>)
    returns (newMessages: seq<Message>, newBoundaries: seq<Boundary>)
    ensures History(newMessages, newBoundaries) == EagerTrim(History(messages, boundaries))
  {
    if boundaries == [] || messages == [] {
      return messages, boundaries;
    }
    var completed := HasCompleted(boundaries);
    if !completed {
      return messages, boundaries;
    }
    newMessages, newBoundaries := CutTasks(messages, boundaries);
  }

  method CutTasks(messages: seq<Message>, boundaries: seq<Boundary>)
    returns (newMessages: seq<Message>, newBoundaries: seq<Boundary>)
    ensures newMessages == Flatten(Pieces(messages, Kept(messages, boundaries)))
    ensures newBoundaries == Placed(Pieces(messages, Kept(messages, boundaries)), Kept(messages, boundaries), 0)
  {
    newMessages, newBoundaries := [], [];
    for i := 0 to |boundaries|
      invariant Progress(messages, boundaries, i, newMessages, newBoundaries)
    {
      var b := boundaries[i];
      if b.start < 0 || b.start >= |messages| {
        ProgressSkips(messages, boundaries, i, newMessages, newBoundaries);
      } else {
        var newStart := |newMessages|;
        var piece := CutTask(messages, b);
        var moved := Boundary(newStart, if b.end.None? then None else Some(newStart + |piece| - 1));
        ProgressTakes(messages, boundaries, i, newMessages, newBoundaries, moved);
        newMessages := newMessages + piece;
        newBoundaries := newBoundaries + [moved];
      }
    }
    assert boundaries[|boundaries|..] == [];
  }

  /** In a valid history a completed task is cut to its prompt and its report. */
  lemma PieceShape(messages: seq<Message>, b: Boundary)
    requires 0 <= b.start < |messages| && ClosedOk(messages, b)
    ensures Piece(messages, b) != [] && Piece(messages, b)[0] == messages[b.start]
    ensures b.end.Some? ==> |Piece(messages, b)| == 2 && IsReport(Piece(messages, b)[1])
    ensures b.end.None? ==> Piece(messages, b) == messages[b.start..]
  {
    if b.end.Some? {
      FinalReportIsLast(messages, b.start + 1, b.end.value);
    }
  }

  lemma {:induction false} AllKept(messages: seq<Message>, bs: seq<Boundary>)
    requires forall i :: 0 <= i < |bs| ==> 0 <= bs[i].start < |messages|
    ensures Kept(messages, bs) == bs
  {
    if bs != [] {
      AllKept(messages, bs[1..]);
    }
  }

  lemma {:induction false} PlacedAt(parts: seq<seq<Message>>, bs: seq<Boundary>, offset: nat, i: nat)
    requires |parts| == |bs| && i < |bs|
    ensures |Placed(parts, bs, offset)| == |bs|
    ensures Placed(parts, bs, offset)[i].start == offset + OffsetOf(parts, i)
    ensures Placed(parts, bs, offset)[i].end
            == (if bs[i].end.None? then None else Some(offset + OffsetOf(parts, i) + |parts[i]| - 1))
    decreases |bs|
  {
    if i > 0 {
      assert parts[1..][i - 1] == parts[i] && bs[1..][i - 1] == bs[i];
      PlacedAt(parts[1..], bs[1..], offset + |parts[0]|, i - 1);
    } else if |bs| > 1 {
      PlacedAt(parts[1..], bs[1..], offset + |parts[0]|, 0);
    }
  }

  /** Trimming keeps every boundary promise, even past a boundary that was never closed. */
  lemma TrimValid(h: History)
    requires Valid(h)
    ensures Valid(EagerTrim(h))
  {
    var h' := EagerTrim(h);
    if h.boundaries != [] && h.messages != [] && AnyClosed(h.boundaries) {
      TrimmedTask(h, 0);
      forall i | 0 <= i < |h'.boundaries|
        ensures 0 <= h'.boundaries[i].start < |h'.messages|
                && h'.messages[h'.boundaries[i].start].role == User && ClosedOk(h'.messages, h'.boundaries[i])
      {
        TrimmedTask(h, i);
      }
      forall i, j | 0 <= i < j < |h'.boundaries|
        ensures Before(h'.boundaries[i], h'.boundaries[j])
      {
        TrimmedOrder(h, i, j);
      }
    }
  }

  lemma TrimmedOrder(h: History, i: nat, j: nat)
    requires Valid(h) && h.messages != [] && AnyClosed(h.boundaries) && i < j < |h.boundaries|
    ensures |EagerTrim(h).boundaries| == |h.boundaries|
    ensures Before(EagerTrim(h).boundaries[i], EagerTrim(h).boundaries[j])
  {
    AllKept(h.messages, h.boundaries);
    var parts := Pieces(h.messages, h.boundaries);
    PlacedAt(parts, h.boundaries, 0, i);
    PlacedAt(parts, h.boundaries, 0, j);
    OffsetsAscend(parts, i, j);
    PieceShape(h.messages, h.boundaries[i]);
  }

  /** The i-th task after a trim. */
  lemma TrimmedTask(h: History, i: nat)
    requires Valid(h) && h.messages != [] && AnyClosed(h.boundaries) && i < |h.boundaries|
    ensures var h' := EagerTrim(h);
            var piece := Piece(h.messages, h.boundaries[i]);
            && |h'.boundaries| == |h.boundaries|
            && var b := h'.boundaries[i];
               && piece != [] && SitsAt(h'.messages, b.start, piece)
               && b.end == (if h.boundaries[i].end.None? then None else Some(b.start + 1))
               && h'.messages[b.start].role == User && ClosedOk(h'.messages, b)
               && (i == |h.boundaries| - 1 ==> b.start + |piece| == |h'.messages|)
  {
    TrimmedAt(h, i);
    PieceShape(h.messages, h.boundaries[i]);
    PlacedIsClosed(EagerTrim(h).messages, EagerTrim(h).boundaries[i].start, Piece(h.messages, h.boundaries[i]),
                   h.boundaries[i].end.Some?);
  }

  lemma TrimmedAt(h: History, i: nat)
    requires h.messages != [] && AnyClosed(h.boundaries) && i < |h.boundaries|
    requires forall k :: 0 <= k < |h.boundaries| ==> 0 <= h.boundaries[k].start < |h.messages|
    ensures var h' := EagerTrim(h);
            var piece := Piece(h.messages, h.boundaries[i]);
            && |h'.boundaries| == |h.boundaries|
            && var b := h'.boundaries[i];
               && SitsAt(h'.messages, b.start, piece)
               && b.end == (if h.boundaries[i].end.None? then None else Some(b.start + |piece| - 1))
               && (i == |h.boundaries| - 1 ==> b.start + |piece| == |h'.messages|)
  {
    TrimIs(h);
    var parts := Pieces(h.messages, h.boundaries);
    assert parts[i] == Piece(h.messages, h.boundaries[i]);
    PlacedAt(parts, h.boundaries, 0, i);
    FlattenSits(parts, i);
  }

  /** When every boundary points into the log, a trim keeps them all. */
  lemma TrimIs(h: History)
    requires h.messages != [] && AnyClosed(h.boundaries)
    requires forall k :: 0 <= k < |h.boundaries| ==> 0 <= h.boundaries[k].start < |h.messages|
    ensures var parts := Pieces(h.messages, h.boundaries);
            EagerTrim(h) == History(Flatten(parts), Placed(parts, h.boundaries, 0))
  {
    AllKept(h.messages, h.boundaries);
  }

  lemma PlacedIsClosed(all: seq<Message>, start: nat, piece: seq<Message>, closed: bool)
    requires SitsAt(all, start, piece) && piece != []
    requires closed ==> |piece| == 2 && IsReport(piece[1])
    ensures all[start] == piece[0]
    ensures closed ==> all[start + 1] == piece[1] && ClosedOk(all, Boundary(start, Some(start + 1)))
  {
    assert all[start + 0] == piece[0];
    if closed {
      assert all[start + 1] == piece[1];
    }
  }

  /** Only the newest task may be in flight. */
  ghost predicate Serial(h: History) {
    forall i :: 0 <= i < |h.boundaries| - 1 ==> h.boundaries[i].end.Some?
  }

  /** After a trim, each task's piece is the piece it had before. */
  lemma PieceUnchanged(h: History, i: nat)
    requires Valid(h) && Serial(h) && AnyClosed(h.boundaries) && h.messages != [] && i < |h.boundaries|
    ensures |EagerTrim(h).boundaries| == |h.boundaries|
    ensures Piece(EagerTrim(h).messages, EagerTrim(h).boundaries[i]) == Piece(h.messages, h.boundaries[i])
    ensures EagerTrim(h).boundaries[i].end.Some? <==> h.boundaries[i].end.Some?
  {
    var h' := EagerTrim(h);
    TrimmedTask(h, i);
    PieceShape(h.messages, h.boundaries[i]);
    var b, piece := h'.boundaries[i], Piece(h.messages, h.boundaries[i]);
    if b.end.Some? {
      assert h'.messages[b.start] == piece[0] && h'.messages[b.start + 1] == piece[1];
      assert FinalReport(h'.messages, b.start + 1, b.start + 1) == Some(piece[1]);
      assert Piece(h'.messages, b) == [piece[0], piece[1]] == piece;
    }
  }

  /**
   Compressing a session early changes nothing its next run is seeded with, and
   compressing twice is the same as compressing once.
   */
  lemma TrimIsTransparent(h: History)
    requires Valid(h) && Serial(h)
    ensures Trimmed(EagerTrim(h)) == Trimmed(h)
    ensures EagerTrim(EagerTrim(h)).messages == EagerTrim(h).messages
    ensures h.boundaries != [] && h.messages != [] && AnyClosed(h.boundaries) ==> EagerTrim(h).messages == Trimmed(h)
  {
    if h.boundaries != [] && h.messages != [] && AnyClosed(h.boundaries) {
      var h' := EagerTrim(h);
      TrimValid(h);
      AllKept(h.messages, h.boundaries);
      AllKept(h'.messages, h'.boundaries);
      var i :| 0 <= i < |h.boundaries| && h.boundaries[i].end.Some?;
      PieceUnchanged(h, i);
      assert AnyClosed(h'.boundaries);
      SamePieces(h);
    }
  }

  lemma SamePieces(h: History)
    requires Valid(h) && Serial(h) && AnyClosed(h.boundaries) && h.messages != []
    ensures Pieces(EagerTrim(h).messages, EagerTrim(h).boundaries) == Pieces(h.messages, h.boundaries)
  {
    PieceUnchanged(h, 0);
    forall i | 0 <= i < |h.boundaries|
      ensures Piece(EagerTrim(h).messages, EagerTrim(h).boundaries[i]) == Piece(h.messages, h.boundaries[i])
    {
      PieceUnchanged(h, i);
    }
  }

  // ---- When a trim shortens, and when it cannot ----

  /** Laid out one after the other, the pieces of serial tasks never get ahead of the log. */
  lemma {:induction false} PiecesKeepBehind(h: History, i: nat)
    requires Valid(h) && Serial(h) && i < |h.boundaries|
    ensures OffsetOf(Pieces(h.messages, h.boundaries), i) <= h.boundaries[i].start
    decreases i
  {
    if i > 0 {
      var parts := Pieces(h.messages, h.boundaries);
      PiecesKeepBehind(h, i - 1);
      OffsetNext(parts, i - 1);
      PieceShape(h.messages, h.boundaries[i - 1]);
      assert Before(h.boundaries[i - 1], h.boundaries[i]);
    }
  }

  /** A trim never lengthens the log of a session whose earlier tasks are all closed. */
  lemma TrimNeverLengthens(h: History)
    requires Valid(h) && Serial(h)
    ensures |EagerTrim(h).messages| <= |h.messages|
  {
    if h.boundaries != [] && h.messages != [] && AnyClosed(h.boundaries) {
      var last := |h.boundaries| - 1;
      AllKept(h.messages, h.boundaries);
      FlattenSits(Pieces(h.messages, h.boundaries), last);
      PiecesKeepBehind(h, last);
      PieceShape(h.messages, h.boundaries[last]);
    }
  }

  /** The trimmed log holds the tasks one right after the other. */
  lemma TrimmedNext(h: History, i: nat)
    requires Valid(h) && AnyClosed(h.boundaries) && h.messages != [] && i < |h.boundaries| - 1
    ensures |EagerTrim(h).boundaries| == |h.boundaries|
    ensures EagerTrim(h).boundaries[i].start + |Piece(h.messages, h.boundaries[i])|
            == EagerTrim(h).boundaries[i + 1].start
  {
    TrimIs(h);
    var parts := Pieces(h.messages, h.boundaries);
    PlacedAt(parts, h.boundaries, 0, i);
    PlacedAt(parts, h.boundaries, 0, i + 1);
    OffsetNext(parts, i);
  }

  lemma OpenPieceGrows(h: History, i: nat)
    requires Valid(h) && AnyClosed(h.boundaries) && h.messages != [] && i < |h.boundaries|
    requires h.boundaries[i].end.None?
    ensures |EagerTrim(h).boundaries| == |h.boundaries|
    ensures var before := |Piece(h.messages, h.boundaries[i])|;
            var after := |Piece(EagerTrim(h).messages, EagerTrim(h).boundaries[i])|;
            before <= after && (i < |h.boundaries| - 1 ==> before < after)
  {
    var h' := EagerTrim(h);
    TrimmedAt(h, i);
    var b := h'.boundaries[i];
    assert Piece(h.messages, h.boundaries[i]) != [] && b.end.None?;
    assert |Piece(h'.messages, b)| == |h'.messages| - b.start;
    if i < |h.boundaries| - 1 {
      TrimmedNext(h, i);
      NextStartsInside(h, i + 1);
    }
  }

  lemma NextStartsInside(h: History, i: nat)
    requires Valid(h) && AnyClosed(h.boundaries) && h.messages != [] && i < |h.boundaries|
    ensures |EagerTrim(h).boundaries| == |h.boundaries| && EagerTrim(h).boundaries[i].start < |EagerTrim(h).messages|
  {
    TrimValid(h);
    TrimmedAt(h, i);
  }

  lemma ClosedPieceStays(h: History, i: nat)
    requires Valid(h) && AnyClosed(h.boundaries) && h.messages != [] && i < |h.boundaries|
    requires h.boundaries[i].end.Some?
    ensures |EagerTrim(h).boundaries| == |h.boundaries|
    ensures |Piece(EagerTrim(h).messages, EagerTrim(h).boundaries[i])| == |Piece(h.messages, h.boundaries[i])|
  {
    TrimmedTask(h, i);
    PieceShape(h.messages, h.boundaries[i]);
    PieceShape(EagerTrim(h).messages, EagerTrim(h).boundaries[i]);
  }

  /** After a trim no task's piece is shorter than before, and a stranded one's is longer. */
  lemma PieceGrows(h: History, i: nat)
    requires Valid(h) && AnyClosed(h.boundaries) && h.messages != [] && i < |h.boundaries|
    ensures |EagerTrim(h).boundaries| == |h.boundaries|
    ensures var after := |Piece(EagerTrim(h).messages, EagerTrim(h).boundaries[i])|;
            var before := |Piece(h.messages, h.boundaries[i])|;
            before <= after && (h.boundaries[i].end.None? && i < |h.boundaries| - 1 ==> before < after)
  {
    if h.boundaries[i].end.None? {
      OpenPieceGrows(h, i);
    } else {
      ClosedPieceStays(h, i);
    }
  }

  /** A task other than the newest was never closed, and some task was. */
  ghost predicate HasStranded(h: History) {
    Valid(h) && h.messages != [] && AnyClosed(h.boundaries) && !Serial(h)
  }

  lemma TrimKeepsStranded(h: History)
    requires HasStranded(h)
    ensures HasStranded(EagerTrim(h))
  {
    var i :| 0 <= i < |h.boundaries| - 1 && h.boundaries[i].end.None?;
    var c :| 0 <= c < |h.boundaries| && h.boundaries[c].end.Some?;
    TrimValid(h);
    TrimmedTask(h, i);
    TrimmedTask(h, c);
    PieceShape(h.messages, h.boundaries[i]);
  }

  /** With a task stranded anywhere but last, every further trim lengthens the log again. */
  lemma StrandedTrimLengthens(h: History)
    requires HasStranded(h)
    ensures |EagerTrim(EagerTrim(h)).messages| > |EagerTrim(h).messages|
  {
    TrimKeepsStranded(h);
    TrimIs(h);
    TrimIs(EagerTrim(h));
    StrandedPiecesGrow(h);
  }

  lemma StrandedPiecesGrow(h: History)
    requires HasStranded(h)
    ensures |Flatten(Pieces(h.messages, h.boundaries))|
          < |Flatten(Pieces(EagerTrim(h).messages, EagerTrim(h).boundaries))|
  {
    var h' := EagerTrim(h);
    var i :| 0 <= i < |h.boundaries| - 1 && h.boundaries[i].end.None?;
    PieceGrows(h, i);
    var before, after := Pieces(h.messages, h.boundaries), Pieces(h'.messages, h'.boundaries);
    forall k | 0 <= k < |before| ensures |before[k]| <= |after[k]| {
      PieceGrows(h, k);
    }
    assert |before[i]| < |after[i]|;
    FlattenLonger(before, after);
  }

  /** Trimming twice is trimming once exactly for serial histories. */
  lemma TrimIdempotentIff(h: History)
    requires Valid(h) && h.messages != [] && AnyClosed(h.boundaries)
    ensures EagerTrim(EagerTrim(h)).messages == EagerTrim(h).messages <==> Serial(h)
  {
    if Serial(h) {
      TrimIsTransparent(h);
    } else {
      StrandedTrimLengthens(h);
    }
  }

  function TrimmedTimes(h: History, n: nat): History
    decreases n
  {
    if n == 0 then h else TrimmedTimes(EagerTrim(h), n - 1)
  }

  /** A stranded task makes the log grow without bound under repeated trims. */
  lemma {:induction false} StrandedLogGrowsForever(h: History, n: nat)
    requires HasStranded(h)
    ensures |TrimmedTimes(EagerTrim(h), n).messages| >= |EagerTrim(h).messages| + n
    decreases n
  {
    if n > 0 {
      var h' := EagerTrim(h);
      TrimKeepsStranded(h);
      StrandedTrimLengthens(h);
      StrandedLogGrowsForever(h', n - 1);
    }
  }

  // ---- Whole sessions ----

  /** How one task of a session goes. `Stranded`: aborted before it ran, its boundary never
      closed. `partial` are turns absorbed before a failure. `trimmed`: an eager trim follows. */
  datatype Outcome = Returned(turns: seq<Message>, stub: string) | Interrupted(partial: seq<Message>) | Stranded

  datatype Task = Task(prompt: string, outcome: Outcome, trimmed: bool)

  function RunTask(h: History, task: Task): History {
    var begun := OpenTask(h, task.prompt);
    var closed := match task.outcome
      case Returned(turns, stub) => Absorb(begun, turns, stub)
      case Interrupted(partial) => CloseAborted(begun.(messages := begun.messages + partial))
      case Stranded => begun;
    if task.trimmed then EagerTrim(closed) else closed
  }

  function RunTasks(h: History, tasks: seq<Task>): History
    decreases |tasks|
  {
    if tasks == [] then h else RunTasks(RunTask(h, tasks[0]), tasks[1..])
  }

  lemma RunTaskValid(h: History, task: Task)
    requires Valid(h)
    ensures Valid(RunTask(h, task))
  {
    var begun := OpenTask(h, task.prompt);
    OpenValid(h, task.prompt);
    match task.outcome {
      case Returned(turns, stub) =>
        AppendValid(begun, turns);
        CloseValid(begun.(messages := begun.messages + turns), Message(Assistant, stub, false));
        TrimValid(Absorb(begun, turns, stub));
      case Interrupted(partial) =>
        var grown := begun.(messages := begun.messages + partial);
        AppendValid(begun, partial);
        CloseValid(grown, ABORT_STUB);
        TrimValid(CloseAborted(grown));
      case Stranded =>
        TrimValid(begun);
    }
  }

  /**
   Over every serial sequence of tasks, however each ends and whether or not it is
   trimmed afterwards: every closed boundary lies inside the log, holds a report after its
   prompt, and ends before the next boundary starts.
   */
  lemma {:induction false} BoundariesAlwaysHold(h: History, tasks: seq<Task>)
    requires Valid(h)
    ensures Valid(RunTasks(h, tasks))
    decreases |tasks|
  {
    if tasks != [] {
      RunTaskValid(h, tasks[0]);
      BoundariesAlwaysHold(RunTask(h, tasks[0]), tasks[1..]);
    }
  }

  /**
   A task stranded behind a log that is already compressed makes the very next trim inflate
   it: the open boundary keeps everything after it, and every later task is kept again.
   */
  lemma StrandedTaskInflates(h: History, i: nat)
    requires HasStranded(h) && i < |h.boundaries| - 1 && h.boundaries[i].end.None?
    requires OffsetOf(Pieces(h.messages, h.boundaries), i) == h.boundaries[i].start
    ensures |EagerTrim(h).messages| == |h.messages| + |Flatten(Pieces(h.messages, h.boundaries)[i + 1..])|
    ensures |EagerTrim(h).messages| > |h.messages|
  {
    var parts := Pieces(h.messages, h.boundaries);
    TrimIs(h);
    FlattenSplit(parts, i);
    assert |parts[i]| == |h.messages| - h.boundaries[i].start;
    LaterPiecesLeft(h, i + 1);
  }

  lemma LaterPiecesLeft(h: History, i: nat)
    requires Valid(h) && i < |h.boundaries|
    ensures |Flatten(Pieces(h.messages, h.boundaries)[i..])| > 0
  {
    var parts := Pieces(h.messages, h.boundaries);
    PieceShape(h.messages, h.boundaries[i]);
    assert parts[i..][0] == Piece(h.messages, h.boundaries[i]);
  }

  /** Such a history is what a stranded task and a completed one leave behind. */
  lemma StrandedHistory(first: string, next: string, turns: seq<Message>, stub: string)
    ensures var h := RunTasks(History([], []),
            [Task(first, Stranded, false), Task(next, Returned(turns, stub), false)]);
            && HasStranded(h) && h.boundaries[0] == Boundary(0, None)
            && |EagerTrim(h).messages| == |h.messages| + 2
  {
    var t1, t2 := Task(first, Stranded, false), Task(next, Returned(turns, stub), false);
    var h1 := RunTask(History([], []), t1);
    assert h1.boundaries == [Boundary(0, None)];
    var h2 := RunTask(h1, t2);
    assert RunTasks(h2, []) == h2;
    assert [t1, t2][1..] == [t2] && [t2][1..] == [];
    assert RunTasks(History([], []), [t1, t2]) == RunTasks(h1, [t2]) == h2;
    BoundariesAlwaysHold(History([], []), [t1, t2]);
    StrandedPair(h2);
  }

  lemma StrandedPair(h: History)
    requires Valid(h) && |h.boundaries| == 2 && h.boundaries[0] == Boundary(0, None) && h.boundaries[1].end.Some?
    ensures HasStranded(h) && |EagerTrim(h).messages| == |h.messages| + 2
  {
    assert !Serial(h) && AnyClosed(h.boundaries);
    StrandedTaskInflates(h, 0);
    PieceShape(h.messages, h.boundaries[1]);
    var rest := Pieces(h.messages, h.boundaries)[1..];
    assert rest == [Piece(h.messages, h.boundaries[1])] && rest[1..] == [];
  }

  /** A trim that has something to compress; otherwise it returns before it suspends. */
  predicate TrimAssigns(h: History) { h.boundaries != [] && h.messages != [] && AnyClosed(h.boundaries) }

  // ---- Trimming in two steps ----

  /** What the trim of `h` leaves when the session has become `later` while messages were offloaded. */
  function AssignTrim(h: History, later: History): History { if TrimAssigns(h) then EagerTrim(h) else later }

  /** The prompts of a session's tasks, in order. */
  ghost function Prompts(h: History): seq<Message>
    requires Valid(h)
  {
    seq(|h.boundaries|, i requires 0 <= i < |h.boundaries| => h.messages[h.boundaries[i].start])
  }

  function PromptsOf(tasks: seq<Task>): seq<Message> {
    seq(|tasks|, i requires 0 <= i < |tasks| => Message(User, tasks[i].prompt, false))
  }

  lemma TrimKeepsPrompts(h: History)
    requires Valid(h)
    ensures Valid(EagerTrim(h)) && Prompts(EagerTrim(h)) == Prompts(h)
  {
    TrimValid(h);
    if TrimAssigns(h) {
      TrimmedTask(h, 0);
      forall i | 0 <= i < |h.boundaries| ensures Prompts(EagerTrim(h))[i] == Prompts(h)[i] {
        TrimmedTask(h, i);
        PieceShape(h.messages, h.boundaries[i]);
        assert EagerTrim(h).messages[EagerTrim(h).boundaries[i].start + 0] == Piece(h.messages, h.boundaries[i])[0];
      }
    }
  }

  /** Turns and a closed end leave the prompts as they are. */
  lemma ClosingKeepsPrompts(h: History, h': History)
    requires Valid(h) && Valid(h') && h.messages <= h'.messages && |h'.boundaries| == |h.boundaries|
    requires forall i :: 0 <= i < |h.boundaries| ==> h'.boundaries[i].start == h.boundaries[i].start
    ensures Prompts(h') == Prompts(h)
  {}

  lemma RunTaskPrompts(h: History, task: Task)
    requires Valid(h)
    ensures Valid(RunTask(h, task)) && Prompts(RunTask(h, task)) == Prompts(h) + PromptsOf([task])
  {
    var begun, closed := OpenTask(h, task.prompt), RunTask(h, task.(trimmed := false));
    OpenValid(h, task.prompt);
    RunTaskValid(h, task.(trimmed := false));
    assert Prompts(begun) == Prompts(h) + PromptsOf([task]);
    ClosingKeepsPrompts(begun, closed);
    TrimKeepsPrompts(closed);
  }

  lemma {:induction false} RunTasksPrompts(h: History, tasks: seq<Task>)
    requires Valid(h)
    ensures Valid(RunTasks(h, tasks)) && Prompts(RunTasks(h, tasks)) == Prompts(h) + PromptsOf(tasks)
    decreases |tasks|
  {
    if tasks != [] {
      RunTaskPrompts(h, tasks[0]);
      RunTasksPrompts(RunTask(h, tasks[0]), tasks[1..]);
      assert PromptsOf(tasks) == PromptsOf([tasks[0]]) + PromptsOf(tasks[1..]);
    }
  }

  /**
   The trimmed lists are computed before the offload and assigned after it. Whatever tasks
   run in between, and however far each gets, the assignment drops their prompts and no
   other: it keeps every prompt if and only if no task was opened in the gap.
   */
  lemma GapTrimKeepsPromptsIff(h: History, tasks: seq<Task>)
    requires Valid(h) && TrimAssigns(h)
    ensures var later := RunTasks(h, tasks);
            && Valid(later) && Valid(AssignTrim(h, later))
            && Prompts(later) == Prompts(AssignTrim(h, later)) + PromptsOf(tasks)
            && (Prompts(AssignTrim(h, later)) == Prompts(later) <==> tasks == [])
  {
    RunTasksPrompts(h, tasks);
    TrimKeepsPrompts(h);
  }

  // ---- The mutable session ----

  /** Some message is the assistant's and calls no tools. */
  predicate Reports(turns: seq<Message>) {
    exists k :: 0 <= k < |turns| && turns[k].role == Assistant && !turns[k].callsTools
  }

  lemma TailReports(messages: seq<Message>, from: nat)
    requires from <= |messages|
    ensures Reports(messages[from..]) <==> HasReport(messages, from, |messages| - 1)
  {
    var tail := messages[from..];
    if Reports(tail) {
      var k :| 0 <= k < |tail| && tail[k].role == Assistant && !tail[k].callsTools;
      assert IsReport(messages[from + k]);
    }
    if HasReport(messages, from, |messages| - 1) {
      var k :| 0 <= k < |messages| && from <= k <= |messages| - 1 && IsReport(messages[k]);
      assert tail[k - from] == messages[k];
    }
  }

  /** Closing spelled out: a stub exactly when nothing after the prompt reports, and the boundary ends
      with the log. */
  lemma ClosedAs(h: History, stub: Message)
    requires h.boundaries != [] && 0 <= Last(h).start < |h.messages|
    ensures var start := Last(h).start;
            var messages := h.messages + (if Reports(h.messages[start + 1..]) then [] else [stub]);
            CloseWith(h, stub)
            == History(messages, h.boundaries[|h.boundaries| - 1 := Boundary(start, Some(|messages| - 1))])
  {
    FoundIff(h.messages, Last(h).start + 1);
    assert h.messages + [] == h.messages;
  }

  lemma FoundIff(messages: seq<Message>, from: nat)
    requires from <= |messages|
    ensures FinalReport(messages, from, |messages| - 1).Some? <==> Reports(messages[from..])
  {
    FinalReportIsLast(messages, from, |messages| - 1);
    TailReports(messages, from);
  }

  class SubAgentSession {
    var messages: seq<Message>
    var boundaries: seq<Boundary>

    ghost function View(): History
      reads this
    {
      History(messages, boundaries)
    }

    constructor ()
      ensures View() == History([], []) && Valid(View())
    {
      messages, boundaries := [], [];
    }

    method Open(prompt: string)
      requires Valid(View())
      modifies this
      ensures View() == OpenTask(old(View()), prompt) && Valid(View())
      ensures messages == old(messages) + [Message(User, prompt, false)]
      ensures boundaries == old(boundaries) + [Boundary(|old(messages)|, None)]
    {
      OpenValid(View(), prompt);
      var start := |messages|;
      messages := messages + [Message(User, prompt, false)];
      boundaries := boundaries + [Boundary(start, None)];
    }

    /** The open task gets `stub` unless something after its prompt reports, and its boundary ends there. */
    method CloseLast(stub: Message)
      requires Valid(View()) && boundaries != [] && IsReport(stub)
      modifies this
      ensures View() == CloseWith(old(View()), stub) && Valid(View())
    {
      CloseValid(View(), stub);
      var start := boundaries[|boundaries| - 1].start;
      var report := FindFinalAssistant(messages, start + 1, |messages| - 1);
      if report.None? {
        messages := messages + [stub];
      }
      boundaries := boundaries[|boundaries| - 1 := Boundary(start, Some(Max(start, |messages| - 1)))];
    }

    method AbsorbTurns(turns: seq<Message>, stub: string)
      requires Valid(View()) && boundaries != []
      modifies this
      ensures View() == Absorb(old(View()), turns, stub) && Valid(View())
      ensures var all, start := old(messages) + turns, old(boundaries)[|old(boundaries)| - 1].start;
              && messages == all + (if Reports(all[start + 1..]) then [] else [Message(Assistant, stub, false)])
              && boundaries == old(boundaries)[|boundaries| - 1 := Boundary(start, Some(|messages| - 1))]
    {
      AppendValid(View(), turns);
      messages := messages + turns;
      ClosedAs(View(), Message(Assistant, stub, false));
      CloseLast(Message(Assistant, stub, false));
    }

    method CloseBoundaryAborted()
      requires Valid(View())
      modifies this
      ensures View() == CloseAborted(old(View())) && Valid(View())
      ensures old(boundaries) == [] || old(boundaries)[|old(boundaries)| - 1].end.Some? ==> View() == old(View())
      ensures old(boundaries) != [] && old(boundaries)[|old(boundaries)| - 1].end.None? ==>
                var start := old(boundaries)[|old(boundaries)| - 1].start;
                && messages == old(messages) + (if Reports(old(messages)[start + 1..]) then [] else [ABORT_STUB])
                && boundaries == old(boundaries)[|boundaries| - 1 := Boundary(start, Some(|messages| - 1))]
    {
      if boundaries == [] || boundaries[|boundaries| - 1].end.Some? {
        return;
      }
      ClosedAs(View(), ABORT_STUB);
      CloseLast(ABORT_STUB);
    }

    /** First half of the eager trim: both lists, computed and not yet assigned. */
    method PlanTrim() returns (plan: Option<History>)
      ensures plan == if TrimAssigns(View()) then Some(EagerTrim(View())) else None
    {
      if boundaries == [] || messages == [] {
        return None;
      }
      var completed := HasCompleted(boundaries);
      if !completed {
        return None;
      }
      var newMessages, newBoundaries := TrimAndRemapBoundaries(messages, boundaries);
      return Some(History(newMessages, newBoundaries));
    }

    /** Second half, after the offload: the planned lists replace whatever is there. */
    method FinishTrim(ghost planned: History, plan: Option<History>)
      requires plan == if TrimAssigns(planned) then Some(EagerTrim(planned)) else None
      modifies this
      ensures View() == AssignTrim(planned, old(View()))
    {
      if plan.Some? {
        messages, boundaries := plan.value.messages, plan.value.boundaries;
      }
    }

    /** Both halves with nothing in between. */
    method Trim()
      requires Valid(View())
      modifies this
      ensures View() == EagerTrim(old(View())) && Valid(View())
    {
      TrimValid(View());
      ghost var planned := View();
      var plan := PlanTrim();
      FinishTrim(planned, plan);
    }
  }
}
