/**
 Durable messages between agents, read through one cursor per (agent, task, message type).

 The event store is outside this model: a read is whatever batch it returned. `Fetch` is
 the batch a contract-keeping store returns, and the theorem about runs is for such stores;
 what `consume` does with any other batch is stated too.
 */
module AgentComms {
  import opened Common

  /** `ordinal` is the stamped sequence number, or the decimal id it falls back to; a store
      that stamps neither leaves it out. `job` and `usable` are the payload of a result message:
      its correlation id and whether it carries a result object. */
  datatype Event = Event(ordinal: Option<nat>, to: string, task: string, kind: string, job: string, usable: bool)

  datatype Key = Key(agent: string, task: Option<string>, kind: Option<string>)

  datatype ReadError = NoOrdinal | Misordered

  type Cursors = map<Key, nat>

  function CursorOf(cursors: Cursors, k: Key): nat {
    if k in cursors then cursors[k] else 0
  }

  // ---- consume ----

  function Ord(e: Event): nat { if e.ordinal.Some? then e.ordinal.value else 0 }

  ghost predicate AllStamped(batch: seq<Event>) {
    forall e :: e in batch ==> e.ordinal.Some?
  }

  ghost predicate Ascending(batch: seq<Event>) {
    forall i, j :: 0 <= i < j < |batch| ==> Ord(batch[i]) < Ord(batch[j])
  }

  /** What a read does to the cursors, for every batch a store may return. */
  ghost function AfterRead(cursors: Cursors, k: Key, batch: seq<Event>): Result<Cursors, ReadError> {
    if batch == [] then Ok(cursors)
    else if !AllStamped(batch) then Err(NoOrdinal)
    else if !Ascending(batch) then Err(Misordered)
    else Ok(cursors[k := Ord(batch[|batch| - 1])])
  }

  class AgentComm {
    var cursors: Cursors

    constructor ()
      ensures cursors == map[]
    {
      cursors := map[];
    }

    /** A batch that is unstamped or out of order is refused and moves nothing. */
    method Consume(k: Key, batch: seq<Event>) returns (events: Result<seq<Event>, ReadError>)
      modifies this
      ensures events.Ok? <==> AfterRead(old(cursors), k, batch).Ok?
      ensures events.Ok? ==> events.value == batch && cursors == AfterRead(old(cursors), k, batch).value
      ensures events.Err? ==> cursors == old(cursors) && events.error == AfterRead(old(cursors), k, batch).error
    {
      var outcome := LastOrdinal(batch);
      if outcome.Err? {
        match outcome.error
        case NoOrdinal => return Err(NoOrdinal);
        case Misordered => return Err(Misordered);
      }
      if outcome.value.Some? {
        cursors := cursors[k := outcome.value.value];
      }
      return Ok(batch);
    }

    /** Forgets one typed cursor, or every cursor of the agent and task. */
    method ResetCursor(agent: string, task: Option<string>, kind: Option<string>)
      modifies this
      ensures forall k :: k in cursors <==>
                            k in old(cursors)
                            && !(k.agent == agent && k.task == task && (kind.None? || k.kind == kind))
      ensures forall k :: k in cursors ==> cursors[k] == old(cursors)[k]
    {
      if kind.Some? {
        cursors := cursors - {Key(agent, task, kind)};
        return;
      }
      var unseen := cursors.Keys;
      while unseen != {}
        invariant unseen <= old(cursors).Keys
        invariant forall k :: k in cursors <==>
                                k in old(cursors) && (k in unseen || !(k.agent == agent && k.task == task))
        invariant forall k :: k in cursors ==> cursors[k] == old(cursors)[k]
        decreases unseen
      {
        var k :| k in unseen;
        unseen := unseen - {k};
        if k.agent == agent && k.task == task {
          cursors := cursors - {k};
        }
      }
    }
  }

  /** Collects the ordinals, then compares neighbours. */
  method LastOrdinal(batch: seq<Event>) returns (outcome: Result<Option<nat>, ReadError>)
    ensures batch == [] ==> outcome == Ok(None)
    ensures outcome.Ok? <==> AllStamped(batch) && Ascending(batch)
    ensures outcome == Err(NoOrdinal) <==> !AllStamped(batch)
    ensures outcome == Err(Misordered) <==> AllStamped(batch) && !Ascending(batch)
    ensures outcome.Ok? && batch != [] ==> outcome.value == batch[|batch| - 1].ordinal
  {
    if batch == [] {
      return Ok(None);
    }
    var ids: seq<nat> := [];
    for i := 0 to |batch|
      invariant |ids| == i
      invariant forall k :: 0 <= k < i ==> batch[k].ordinal == Some(ids[k])
    {
      if batch[i].ordinal.None? {
        assert batch[i] in batch;
        return Err(NoOrdinal);
      }
      ids := ids + [Ord(batch[i])];
    }
    assert AllStamped(batch);
    for i := 0 to |ids| - 1
      invariant forall k, m :: 0 <= k < m <= i ==> ids[k] < ids[m]
    {
      if ids[i + 1] <= ids[i] {
        assert Ord(batch[i]) >= Ord(batch[i + 1]);
        return Err(Misordered);
      }
    }
    return Ok(Some(ids[|ids| - 1]));
  }

  // ---- The store's side of the contract ----

  function Matches(e: Event, k: Key): bool {
    && e.to == k.agent
    && (k.task.Some? ==> e.task == k.task.value)
    && (k.kind.Some? ==> e.kind == k.kind.value)
  }

  function Matching(log: seq<Event>, k: Key): seq<Event> {
    if log == [] then []
    else (if Matches(log[0], k) then [log[0]] else []) + Matching(log[1..], k)
  }

  /** Events at or below the cursor, and events beyond it. */
  function UpTo(events: seq<Event>, cursor: nat): seq<Event> {
    if events == [] then []
    else (if Ord(events[0]) <= cursor then [events[0]] else [])
         + UpTo(events[1..], cursor)
  }

  function Beyond(events: seq<Event>, cursor: nat): seq<Event> {
    if events == [] then []
    else (if Ord(events[0]) <= cursor then [] else [events[0]])
         + Beyond(events[1..], cursor)
  }

  function Take(events: seq<Event>, limit: nat): seq<Event> {
    if limit < |events| then events[..limit] else events
  }

  /** The batch a contract-keeping store returns: the oldest unread matches, at most `limit`. */
  function Fetch(log: seq<Event>, k: Key, cursor: nat, limit: nat): seq<Event> {
    Take(Beyond(Matching(log, k), cursor), limit)
  }

  /** Every event is stamped, with a positive ordinal larger than the one before. */
  ghost predicate Sorted(events: seq<Event>) {
    && (forall e :: e in events ==> e.ordinal.Some? && Ord(e) > 0)
    && Ascending(events)
  }

  lemma {:induction false} SortedTail(events: seq<Event>)
    requires Sorted(events) && events != []
    ensures Sorted(events[1..])
    ensures forall e :: e in events[1..] ==> Ord(events[0]) < Ord(e)
  {
    var rest := events[1..];
    forall e | e in rest
      ensures e in events && Ord(events[0]) < Ord(e)
    {
      var i :| 0 <= i < |rest| && rest[i] == e;
      assert events[i + 1] == e;
    }
    forall i, j | 0 <= i < j < |rest|
      ensures Ord(rest[i]) < Ord(rest[j])
    {
      assert events[i + 1] == rest[i] && events[j + 1] == rest[j];
    }
  }

  lemma {:induction false} MatchingMembers(log: seq<Event>, k: Key)
    ensures forall e :: e in Matching(log, k) <==> e in log && Matches(e, k)
  {
    if log != [] {
      MatchingMembers(log[1..], k);
      assert log == [log[0]] + log[1..];
    }
  }

  lemma {:induction false} MatchingSorted(log: seq<Event>, k: Key)
    requires Sorted(log)
    ensures Sorted(Matching(log, k))
  {
    if log != [] {
      SortedTail(log);
      MatchingSorted(log[1..], k);
      MatchingMembers(log[1..], k);
      if Matches(log[0], k) {
        SortedCons(log[0], Matching(log[1..], k));
      }
    }
  }

  lemma SortedCons(e: Event, rest: seq<Event>)
    requires Sorted(rest) && e.ordinal.Some? && Ord(e) > 0
    requires forall x :: x in rest ==> Ord(e) < Ord(x)
    ensures Sorted([e] + rest)
  {
    var all := [e] + rest;
    forall i, j | 0 <= i < j < |all|
      ensures Ord(all[i]) < Ord(all[j])
    {
      assert all[j] == rest[j - 1] && rest[j - 1] in rest;
    }
  }

  lemma {:induction false} MatchingAppend(log: seq<Event>, e: Event, k: Key)
    ensures Matching(log + [e], k) == Matching(log, k) + (if Matches(e, k) then [e] else [])
  {
    if log != [] {
      assert (log + [e])[1..] == log[1..] + [e];
      MatchingAppend(log[1..], e, k);
    }
  }

  lemma {:induction false} UpToAppend(events: seq<Event>, e: Event, cursor: nat)
    requires Ord(e) > cursor
    ensures UpTo(events + [e], cursor) == UpTo(events, cursor)
  {
    if events != [] {
      assert (events + [e])[1..] == events[1..] + [e];
      UpToAppend(events[1..], e, cursor);
    }
  }

  /** Below the first ordinal of a sorted list there is nothing. */
  lemma {:induction false} NothingUpTo(events: seq<Event>, cursor: nat)
    requires forall e :: e in events ==> Ord(e) > cursor
    ensures UpTo(events, cursor) == [] && Beyond(events, cursor) == events
  {
    if events != [] {
      assert events == [events[0]] + events[1..];
      NothingUpTo(events[1..], cursor);
    }
  }

  /** The cursor splits a sorted list into what was read and what was not. */
  lemma {:induction false} CursorSplits(events: seq<Event>, cursor: nat)
    requires Sorted(events)
    ensures events == UpTo(events, cursor) + Beyond(events, cursor)
    ensures forall e :: e in UpTo(events, cursor) ==> Ord(e) <= cursor
    ensures forall e :: e in Beyond(events, cursor) ==> Ord(e) > cursor
  {
    if events != [] {
      assert events == [events[0]] + events[1..];
      SortedTail(events);
      if Ord(events[0]) > cursor {
        forall e | e in events ensures Ord(e) > cursor {}
        NothingUpTo(events, cursor);
      } else {
        CursorSplits(events[1..], cursor);
      }
    }
  }

  lemma {:induction false} UpToConcat(a: seq<Event>, b: seq<Event>, cursor: nat)
    ensures UpTo(a + b, cursor) == UpTo(a, cursor) + UpTo(b, cursor)
  {
    if a == [] {
      assert a + b == b;
    } else {
      assert (a + b)[1..] == a[1..] + b && (a + b)[0] == a[0];
      UpToConcat(a[1..], b, cursor);
      Reassociate(if Ord(a[0]) <= cursor then [a[0]] else [], UpTo(a[1..], cursor), UpTo(b, cursor));
    }
  }

  lemma {:induction false} EverythingUpTo(events: seq<Event>, cursor: nat)
    requires forall e :: e in events ==> Ord(e) <= cursor
    ensures UpTo(events, cursor) == events
  {
    if events != [] {
      assert events == [events[0]] + events[1..];
      EverythingUpTo(events[1..], cursor);
    }
  }

  lemma SortedSlice(events: seq<Event>, n: nat)
    requires Sorted(events) && n <= |events|
    ensures Sorted(events[..n]) && Sorted(events[n..])
    ensures forall x, y :: x in events[..n] && y in events[n..] ==>
                             Ord(x) < Ord(y)
  {
    forall i, j | 0 <= i < j < |events[n..]|
      ensures Ord(events[n..][i]) < Ord(events[n..][j])
    {
      assert events[n..][i] == events[n + i] && events[n..][j] == events[n + j];
    }
    forall x, y | x in events[..n] && y in events[n..]
      ensures Ord(x) < Ord(y)
    {
      var i :| 0 <= i < n && events[i] == x;
      var j :| n <= j < |events| && events[j] == y;
    }
  }

  /**
   One read of a contract-keeping store is accepted and extends exactly the part of the
   log that was read: nothing skipped, nothing repeated, whatever the limit.
   */
  lemma ReadExtendsPrefix(log: seq<Event>, k: Key, cursors: Cursors, limit: nat)
    requires Sorted(log)
    ensures var cursor := CursorOf(cursors, k);
            var batch := Fetch(log, k, cursor, limit);
            && AfterRead(cursors, k, batch).Ok?
            && var cursor' := CursorOf(AfterRead(cursors, k, batch).value, k);
               && cursor' >= cursor
               && UpTo(Matching(log, k), cursor') == UpTo(Matching(log, k), cursor) + batch
               && (batch == [] || (batch[|batch| - 1] in log && batch[|batch| - 1].ordinal == Some(cursor')))
  {
    var cursor := CursorOf(cursors, k);
    var batch := Fetch(log, k, cursor, limit);
    FetchSplits(log, k, cursor, limit);
    if batch != [] {
      var seen := UpTo(Matching(log, k), cursor);
      var tail :| Matching(log, k) == seen + batch + tail;
      SplitRead(seen, batch, tail);
      assert batch[|batch| - 1] in batch;
    }
  }

  /** A batch is the next stretch of the stream after what was read. */
  lemma FetchSplits(log: seq<Event>, k: Key, cursor: nat, limit: nat)
    requires Sorted(log)
    ensures Sorted(Matching(log, k))
    ensures exists tail :: Matching(log, k) == UpTo(Matching(log, k), cursor) + Fetch(log, k, cursor, limit) + tail
    ensures forall e :: e in Fetch(log, k, cursor, limit) ==> e in log && Matches(e, k) && Ord(e) > cursor
  {
    MatchingSorted(log, k);
    MatchingMembers(log, k);
    var m := Matching(log, k);
    CursorSplits(m, cursor);
    var rest, batch := Beyond(m, cursor), Fetch(log, k, cursor, limit);
    var tail := rest[|batch|..];
    assert rest == batch + tail;
    assert m == UpTo(m, cursor) + batch + tail;
    forall e | e in batch
      ensures e in rest && e in log && Matches(e, k)
    {
      assert e in rest && e in UpTo(m, cursor) + rest;
    }
  }

  /** The message is addressed to the reader and of the task and kind asked for, if any is. */
  predicate MeantFor(e: Event, k: Key) {
    e.to == k.agent && (k.task == None || k.task == Some(e.task)) && (k.kind == None || k.kind == Some(e.kind))
  }

  /** A batch is no longer than the limit and holds unread messages meant for the reader; one below the
      limit holds them all. */
  lemma BatchWithinLimit(log: seq<Event>, k: Key, cursor: nat, limit: nat, e: Event)
    requires Sorted(log)
    ensures var batch := Fetch(log, k, cursor, limit);
            && |batch| <= limit
            && (e in batch ==> e in log && Ord(e) > cursor && MeantFor(e, k))
            && (|batch| < limit && e in log && Ord(e) > cursor && MeantFor(e, k) ==> e in batch)
  {
    var m := Matching(log, k);
    FetchSplits(log, k, cursor, limit);
    MatchingMembers(log, k);
    CursorSplits(m, cursor);
    assert e in m ==> e in UpTo(m, cursor) || e in Beyond(m, cursor);
  }

  /** A sorted stream cut after a non-empty batch: the batch ascends and its last ordinal is the cut. */
  lemma SplitRead(seen: seq<Event>, batch: seq<Event>, tail: seq<Event>)
    requires batch != [] && Sorted(seen + batch + tail)
    ensures AllStamped(batch) && Ascending(batch) && batch[|batch| - 1].ordinal.Some?
    ensures UpTo(seen + batch + tail, Ord(batch[|batch| - 1])) == seen + batch
  {
    var cut := Ord(batch[|batch| - 1]);
    SortedSlice(seen + batch + tail, |seen + batch|);
    assert (seen + batch + tail)[..|seen + batch|] == seen + batch;
    assert (seen + batch + tail)[|seen + batch|..] == tail;
    SortedSlice(seen + batch, |seen|);
    assert (seen + batch)[..|seen|] == seen && (seen + batch)[|seen|..] == batch;
    BatchAscends(seen + batch);
    assert (seen + batch)[|seen + batch| - 1] == batch[|batch| - 1];
    EverythingUpTo(seen + batch, cut);
    assert batch[|batch| - 1] in seen + batch && batch[|batch| - 1] in batch;
    NothingUpTo(tail, cut);
    UpToConcat(seen + batch, tail, cut);
  }

  lemma BatchAscends(batch: seq<Event>)
    requires Sorted(batch) && batch != []
    ensures AllStamped(batch) && Ascending(batch)
    ensures batch[|batch| - 1].ordinal.Some?
    ensures forall e :: e in batch ==> Ord(e) <= Ord(batch[|batch| - 1])
  {
    assert batch[|batch| - 1] in batch;
    forall e | e in batch
      ensures Ord(e) <= Ord(batch[|batch| - 1])
    {
      var i :| 0 <= i < |batch| && batch[i] == e;
      if i < |batch| - 1 {
        assert Ord(batch[i]) < Ord(batch[|batch| - 1]);
      }
    }
  }

  // ---- Runs ----

  /** `got` holds, per key, everything its reads returned since the cursor last stood at 0. */
  datatype Comm = Comm(log: seq<Event>, cursors: Cursors, got: map<Key, seq<Event>>)

  datatype CommStep =
    | Send(e: Event)
    | Read(k: Key, limit: nat)
    | BrokenRead(k: Key, batch: seq<Event>)
    | Reset(k: Key)

  function Got(c: Comm, k: Key): seq<Event> { if k in c.got then c.got[k] else [] }

  /** A send is stamped beyond everything in the log; a broken read returns a batch that
      `consume` refuses. */
  ghost predicate CommEnabled(c: Comm, step: CommStep) {
    match step
    case Send(e) => Sorted(c.log + [e])
    case Read(_, _) => true
    case BrokenRead(k, batch) => AfterRead(c.cursors, k, batch).Err?
    case Reset(_) => true
  }

  ghost function CommApply(c: Comm, step: CommStep): Comm
    requires CommEnabled(c, step)
  {
    match step
    case Send(e) => c.(log := c.log + [e])
    case Read(k, limit) =>
      var batch := Fetch(c.log, k, CursorOf(c.cursors, k), limit);
      var after := AfterRead(c.cursors, k, batch);
      if after.Err? then c
      else c.(cursors := after.value, got := c.got[k := Got(c, k) + batch])
    case BrokenRead(_, _) => c
    case Reset(k) => c.(cursors := c.cursors - {k}, got := c.got - {k})
  }

  ghost predicate CommRun(c: Comm, steps: seq<CommStep>, final: Comm)
    decreases |steps|
  {
    if steps == [] then final == c
    else CommEnabled(c, steps[0]) && CommRun(CommApply(c, steps[0]), steps[1..], final)
  }

  /** Each reader has exactly the part of its stream up to its cursor. */
  ghost predicate ReadersExact(c: Comm) {
    && Sorted(c.log)
    && (forall k :: k in c.cursors ==> exists e :: e in c.log && e.ordinal == Some(c.cursors[k]))
    && (forall k {:trigger Got(c, k)} :: Got(c, k) == UpTo(Matching(c.log, k), CursorOf(c.cursors, k)))
  }

  lemma SendExact(c: Comm, e: Event)
    requires ReadersExact(c) && Sorted(c.log + [e])
    ensures ReadersExact(c.(log := c.log + [e]))
  {
    var c' := c.(log := c.log + [e]);
    assert e in c'.log && c'.log[|c.log|] == e;
    forall k {:trigger Got(c', k)} | true
      ensures Got(c', k) == UpTo(Matching(c'.log, k), CursorOf(c'.cursors, k))
    {
      assert Got(c', k) == Got(c, k);
      MatchingAppend(c.log, e, k);
      var cursor := CursorOf(c.cursors, k);
      if k in c.cursors {
        var x :| x in c.log && x.ordinal == Some(c.cursors[k]);
        var i :| 0 <= i < |c.log| && c.log[i] == x;
        assert c'.log[i] == x && Ord(c'.log[i]) < Ord(c'.log[|c.log|]);
      }
      assert Ord(e) > cursor;
      assert Matching(c.log, k) + [] == Matching(c.log, k);
      UpToAppend(Matching(c.log, k), e, cursor);
    }
  }

  lemma ReadExact(c: Comm, k: Key, limit: nat)
    requires ReadersExact(c)
    ensures ReadersExact(CommApply(c, Read(k, limit)))
  {
    ReadExtendsPrefix(c.log, k, c.cursors, limit);
    var c', batch := CommApply(c, Read(k, limit)), Fetch(c.log, k, CursorOf(c.cursors, k), limit);
    assert Got(c', k) == Got(c, k) + batch;
    forall x {:trigger Got(c', x)} | true
      ensures Got(c', x) == UpTo(Matching(c'.log, x), CursorOf(c'.cursors, x))
    {
      assert Got(c, x) == UpTo(Matching(c.log, x), CursorOf(c.cursors, x));
      assert x != k ==> Got(c', x) == Got(c, x) && CursorOf(c'.cursors, x) == CursorOf(c.cursors, x);
    }
  }

  lemma ResetExact(c: Comm, k: Key)
    requires ReadersExact(c)
    ensures ReadersExact(CommApply(c, Reset(k)))
  {
    var c' := CommApply(c, Reset(k));
    forall x {:trigger Got(c', x)} | true
      ensures Got(c', x) == UpTo(Matching(c'.log, x), CursorOf(c'.cursors, x))
    {
      assert Got(c, x) == UpTo(Matching(c.log, x), CursorOf(c.cursors, x));
      if x == k {
        MatchingMembers(c.log, k);
        NothingUpTo(Matching(c.log, k), 0);
      }
    }
  }

  /**
   Over every run of sends, reads with any limits, refused reads and resets, each reader
   has received exactly the prefix of its stream up to its cursor, in order, once.
   */
  lemma {:induction false} EveryRunExact(c: Comm, steps: seq<CommStep>, final: Comm)
    requires ReadersExact(c) && CommRun(c, steps, final)
    ensures ReadersExact(final)
    ensures forall k {:trigger Got(final, k)} :: Got(final, k) <= Matching(final.log, k)
    decreases |steps|
  {
    if steps == [] {
      forall k {:trigger Got(final, k)} | true
        ensures Got(final, k) <= Matching(final.log, k)
      {
        MatchingSorted(final.log, k);
        CursorSplits(Matching(final.log, k), CursorOf(final.cursors, k));
      }
    } else {
      match steps[0] {
        case Send(e) => SendExact(c, e);
        case Read(k, limit) => ReadExact(c, k, limit);
        case BrokenRead(_, _) =>
        case Reset(k) => ResetExact(c, k);
      }
      EveryRunExact(CommApply(c, steps[0]), steps[1..], final);
    }
  }

  /** A step moves at most the cursor of its own key, and only a reset moves it back. */
  lemma CursorsOnlyAdvance(c: Comm, step: CommStep, k: Key)
    requires Sorted(c.log) && CommEnabled(c, step)
    ensures step != Reset(k) ==> CursorOf(CommApply(c, step).cursors, k) >= CursorOf(c.cursors, k)
    ensures !(step.Read? || step.Reset?) || step.k != k
            ==> CursorOf(CommApply(c, step).cursors, k) == CursorOf(c.cursors, k)
  {
    if step.Read? {
      ReadExtendsPrefix(c.log, step.k, c.cursors, step.limit);
    }
  }
}
