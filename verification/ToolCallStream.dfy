/**
 Tool calls over a Responses stream: the deltas forwarded while the stream runs, the deltas
 that complete them from the terminal response, and the assembler both are fed to.
 */
module ToolCallStream {
  import opened Common
  import opened ResponsesReplay

  /** A call under construction, and what the stream has forwarded for one output index. */
  datatype Slot = Slot(id: string, name: string, args: string)

  const BLANK := Slot("", "", "")

  /** An empty field adds nothing. */
  datatype CallDelta = CallDelta(index: int, id: string, name: string, args: string)

  // ---- The assembler ----

  function FeedSlot(slot: Slot, d: CallDelta): Slot {
    Slot(Or(d.id, slot.id), slot.name + d.name, slot.args + d.args)
  }

  function At(slots: map<int, Slot>, index: int): Slot {
    if index in slots then slots[index] else BLANK
  }

  function FeedAll(slots: map<int, Slot>, deltas: seq<CallDelta>): map<int, Slot>
    decreases |deltas|
  {
    if deltas == [] then slots
    else FeedAll(slots[deltas[0].index := FeedSlot(At(slots, deltas[0].index), deltas[0])], deltas[1..])
  }

  lemma {:induction false} FeedConcat(slots: map<int, Slot>, a: seq<CallDelta>, b: seq<CallDelta>)
    ensures FeedAll(slots, a + b) == FeedAll(FeedAll(slots, a), b)
    decreases |a|
  {
    if a == [] {
      assert a + b == b;
    } else {
      assert (a + b)[1..] == a[1..] + b && (a + b)[0] == a[0];
      FeedConcat(slots[a[0].index := FeedSlot(At(slots, a[0].index), a[0])], a[1..], b);
    }
  }

  lemma MemberOf<T>(s: set<T>) returns (x: T)
    requires s != {}
    ensures x in s
  {
    x :| x in s;
  }

  lemma {:induction false} SmallestOf(keys: set<int>) returns (least: int)
    requires keys != {}
    ensures least in keys && forall other :: other in keys ==> least <= other
    decreases |keys|
  {
    var k := MemberOf(keys);
    var others := keys - {k};
    least := k;
    if others != {} {
      var least' := SmallestOf(others);
      least := if least' < k then least' else k;
    }
    forall other | other in keys ensures least <= other {
      assert other == k || other in others;
    }
  }

  predicate Ascending(s: seq<int>) { forall i, j :: 0 <= i < j < |s| ==> s[i] < s[j] }

  function Sorted(keys: set<int>): seq<int>
    decreases |keys|
  {
    if keys == {} then []
    else
      assert exists least :: least in keys && forall k :: k in keys ==> least <= k by {
        var least := SmallestOf(keys);
      }
      var least :| least in keys && forall k :: k in keys ==> least <= k;
      [least] + Sorted(keys - {least})
  }

  lemma {:induction false} SortedHolds(keys: set<int>, k: int)
    ensures k in Sorted(keys) <==> k in keys
    decreases |keys|
  {
    if keys != {} {
      SortedHolds(keys - {Sorted(keys)[0]}, k);
    }
  }

  lemma {:induction false} SortedIsAscending(keys: set<int>)
    ensures Ascending(Sorted(keys))
    decreases |keys|
  {
    if keys != {} {
      var least := Sorted(keys)[0];
      var rest := Sorted(keys - {least});
      SortedIsAscending(keys - {least});
      forall i | 0 <= i < |rest| ensures least < rest[i] {
        SortedHolds(keys - {least}, rest[i]);
      }
      AscendingCons(least, rest);
    }
  }

  lemma AscendingCons(least: int, rest: seq<int>)
    requires Ascending(rest) && forall i :: 0 <= i < |rest| ==> least < rest[i]
    ensures Ascending([least] + rest)
  {}

  /** Slots in index order; a call without a name is not executable and is dropped. */
  function NamedAt(slots: map<int, Slot>, keys: seq<int>): seq<Slot> {
    if keys == [] then []
    else (if At(slots, keys[0]).name != "" then [At(slots, keys[0])] else []) + NamedAt(slots, keys[1..])
  }

  lemma NamedAtCons(slots: map<int, Slot>, k: int, rest: seq<int>)
    ensures NamedAt(slots, [k] + rest) == (if At(slots, k).name != "" then [At(slots, k)] else [])
            + NamedAt(slots, rest)
  {
    assert ([k] + rest)[1..] == rest;
  }

  lemma NamedAtFrom(slots: map<int, Slot>, keys: seq<int>, i: nat)
    requires i < |keys|
    ensures NamedAt(slots, keys[i..]) == (if At(slots, keys[i]).name != "" then [At(slots, keys[i])] else [])
            + NamedAt(slots, keys[i + 1..])
  {
    assert keys[i..] == [keys[i]] + keys[i + 1..];
    NamedAtCons(slots, keys[i], keys[i + 1..]);
  }

  function Completed(slots: map<int, Slot>): seq<Slot> { NamedAt(slots, Sorted(slots.Keys)) }

  class StreamToolCalls {
    var slots: map<int, Slot>

    constructor ()
      ensures slots == map[]
    {
      slots := map[];
    }

    method Feed(deltas: seq<CallDelta>)
      modifies this
      ensures slots == FeedAll(old(slots), deltas)
    {
      for i := 0 to |deltas|
        invariant FeedAll(slots, deltas[i..]) == FeedAll(old(slots), deltas)
      {
        var delta := deltas[i];
        assert deltas[i..][0] == delta && deltas[i..][1..] == deltas[i + 1..];
        var slot := if delta.index in slots then slots[delta.index] else BLANK;
        if delta.id != "" {
          slot := slot.(id := delta.id);
        }
        if delta.name != "" {
          slot := slot.(name := slot.name + delta.name);
        }
        if delta.args != "" {
          slot := slot.(args := slot.args + delta.args);
        }
        assert slot == FeedSlot(At(slots, delta.index), delta);
        slots := slots[delta.index := slot];
      }
    }

    method Complete() returns (calls: seq<Slot>)
      ensures calls == Completed(slots)
    {
      calls := CompleteSlots(slots);
    }
  }

  method CompleteSlots(slots: map<int, Slot>) returns (calls: seq<Slot>)
    ensures calls == Completed(slots)
  {
    var keys := Sorted(slots.Keys);
    calls := [];
    ghost var goal := NamedAt(slots, keys);
    assert keys[0..] == keys;
    for i := 0 to |keys|
      invariant calls + NamedAt(slots, keys[i..]) == goal
    {
      var k := keys[i];
      NamedAtFrom(slots, keys, i);
      SortedHolds(slots.Keys, k);
      if slots[k].name != "" {
        Reassociate(calls, [slots[k]], NamedAt(slots, keys[i + 1..]));
        calls := calls + [slots[k]];
      }
    }
  }

  // ---- What the stream forwards ----

  /** `Opened`: a function-call item was added. Events about other items forward no call. */
  datatype Event = CallOpened(index: int, id: string, name: string, args: string) | ArgsDelta(index: int, chunk: string)

  function ForwardedBy(e: Event): seq<CallDelta> {
    match e
    case CallOpened(index, id, name, args) => [CallDelta(index, id, name, args)]
    case ArgsDelta(index, chunk) => if chunk == "" then [] else [CallDelta(index, "", "", chunk)]
  }

  function Remembered(streamed: map<int, Slot>, e: Event): map<int, Slot> {
    match e
    case CallOpened(index, id, name, args) => streamed[index := Slot(id, name, args)]
    case ArgsDelta(index, chunk) =>
      if chunk == "" then streamed
      else streamed[index := At(streamed, index).(args := At(streamed, index).args + chunk)]
  }

  datatype Forwarding = Forwarding(deltas: seq<CallDelta>, streamed: map<int, Slot>)

  function Forward(events: seq<Event>): Forwarding {
    if events == [] then Forwarding([], map[])
    else
      var last := events[|events| - 1];
      var before := Forward(events[..|events| - 1]);
      Forwarding(before.deltas + ForwardedBy(last), Remembered(before.streamed, last))
  }

  method ForwardCalls(events: seq<Event>) returns (deltas: seq<CallDelta>, streamed: map<int, Slot>)
    ensures Forwarding(deltas, streamed) == Forward(events)
  {
    deltas, streamed := [], map[];
    for i := 0 to |events|
      invariant Forwarding(deltas, streamed) == Forward(events[..i])
    {
      assert events[..i + 1][..i] == events[..i] && events[..i + 1][i] == events[i];
      match events[i]
      case CallOpened(index, id, name, args) =>
        streamed := streamed[index := Slot(id, name, args)];
        deltas := deltas + [CallDelta(index, id, name, args)];
      case ArgsDelta(index, chunk) =>
        if chunk != "" {
          var seen := if index in streamed then streamed[index] else BLANK;
          streamed := streamed[index := seen.(args := seen.args + chunk)];
          deltas := deltas + [CallDelta(index, "", "", chunk)];
        }
    }
    assert events[..|events|] == events;
  }

  // ---- What the assembler makes of it ----

  function Fed(events: seq<Event>): map<int, Slot> { FeedAll(map[], Forward(events).deltas) }

  /** The assembler holds exactly what the stream remembers having forwarded. */
  predicate Mirrors(events: seq<Event>) { Fed(events) == Forward(events).streamed }

  /** No event at this index carries a name or arguments. */
  predicate Plain(events: seq<Event>, i: int) {
    forall e :: e in events && e.index == i ==>
                  if e.CallOpened? then e.name == "" && e.args == "" else e.chunk == ""
  }

  predicate Anonymous(events: seq<Event>, i: int) {
    forall e :: e in events && e.index == i && e.CallOpened? ==> e.id == ""
  }

  /** The last opening at this index follows nothing but ids, which it replaces by one of its own. */
  predicate CleanAt(events: seq<Event>, i: int) {
    events != [] ==>
      var before, last := events[..|events| - 1], events[|events| - 1];
      if last.CallOpened? && last.index == i
      then Plain(before, i) && (last.id != "" || Anonymous(before, i))
      else CleanAt(before, i)
  }

  ghost predicate OpensCleanly(events: seq<Event>) { forall i: int :: CleanAt(events, i) }

  lemma Nothing(s: string)
    ensures s + "" == s && "" + s == s
  {}

  lemma Cancel(a: string, b: string, c: string)
    ensures a + c == b + c <==> a == b
  {
    if a + c == b + c {
      assert a == (a + c)[..|a|] && b == (b + c)[..|b|];
    }
  }

  lemma ForwardLast(events: seq<Event>, e: Event)
    ensures Forward(events + [e]) == Forwarding(Forward(events).deltas + ForwardedBy(e),
                                                Remembered(Forward(events).streamed, e))
    ensures Fed(events + [e]) == FeedAll(Fed(events), ForwardedBy(e))
  {
    assert (events + [e])[..|events|] == events;
    FeedConcat(map[], Forward(events).deltas, ForwardedBy(e));
  }

  /** What one more event does to the assembler. */
  lemma FeedForwarded(slots: map<int, Slot>, e: Event)
    ensures var deltas := ForwardedBy(e);
            FeedAll(slots, deltas)
            == if deltas == [] then slots else slots[e.index := FeedSlot(At(slots, e.index), deltas[0])]
  {
    var deltas := ForwardedBy(e);
    assert deltas != [] ==> deltas[1..] == [];
  }

  /** The slots of the assembler and of the stream after one more event, compared at its index. */
  lemma SlotStep(fed: map<int, Slot>, streamed: map<int, Slot>, e: Event)
    requires e.index in fed <==> e.index in streamed
    ensures var fed', streamed' := FeedAll(fed, ForwardedBy(e)), Remembered(streamed, e);
            var slot := At(fed, e.index);
            && (e.index in fed' <==> e.index in streamed')
            && (At(fed', e.index) == At(streamed', e.index) <==>
                if e.CallOpened? then slot.name == "" && slot.args == "" && (slot.id == "" || e.id != "")
                else slot == At(streamed, e.index))
  {
    FeedForwarded(fed, e);
    var slot := At(fed, e.index);
    match e
    case CallOpened(_, id, name, args) =>
      Cancel(slot.name, "", name);
      Cancel(slot.args, "", args);
      Nothing(name);
      Nothing(args);
    case ArgsDelta(_, chunk) =>
      Cancel(slot.args, At(streamed, e.index).args, chunk);
      Nothing(slot.name);
  }

  lemma PlainLast(events: seq<Event>, e: Event, i: int)
    ensures Plain(events + [e], i) <==> Plain(events, i) && Plain([e], i)
    ensures Anonymous(events + [e], i) <==> Anonymous(events, i) && Anonymous([e], i)
  {}

  lemma ContentsStep(fed: map<int, Slot>, e: Event, i: int)
    ensures var before, after := At(fed, i), At(FeedAll(fed, ForwardedBy(e)), i);
            && (after.name == "" && after.args == "" <==> before.name == "" && before.args == "" && Plain([e], i))
            && (after.id == "" <==> before.id == "" && Anonymous([e], i))
  {
    FeedForwarded(fed, e);
    assert e in [e];
  }

  /** What the assembler holds at an index, in terms of the events there. */
  lemma {:induction false} FedContents(events: seq<Event>, i: int)
    ensures At(Fed(events), i).name == "" && At(Fed(events), i).args == "" <==> Plain(events, i)
    ensures At(Fed(events), i).id == "" <==> Anonymous(events, i)
    decreases |events|
  {
    if events != [] {
      var before, e := events[..|events| - 1], events[|events| - 1];
      assert events == before + [e];
      FedContents(before, i);
      PlainLast(before, e, i);
      ForwardLast(before, e);
      ContentsStep(Fed(before), e, i);
    }
  }

  lemma {:induction false} FedAt(events: seq<Event>, i: int)
    ensures i in Fed(events) <==> i in Forward(events).streamed
    ensures At(Fed(events), i) == At(Forward(events).streamed, i) <==> CleanAt(events, i)
    decreases |events|
  {
    if events != [] {
      var before, e := events[..|events| - 1], events[|events| - 1];
      assert events == before + [e];
      FedContents(before, i);
      FedAt(before, i);
      ForwardLast(before, e);
      FeedForwarded(Fed(before), e);
      if e.index == i {
        SlotStep(Fed(before), Forward(before).streamed, e);
      }
    }
  }

  /** What the events of an index add up to: the last id that is not empty, all names and all arguments,
      each in the order they came. */
  function Told(events: seq<Event>, i: int): Slot {
    if events == [] then Slot("", "", "")
    else
      var before := Told(events[..|events| - 1], i);
      match events[|events| - 1]
      case CallOpened(index, id, name, args) =>
        if index != i then before
        else Slot(if id != "" then id else before.id, before.name + name, before.args + args)
      case ArgsDelta(index, chunk) => if index != i then before else Slot(before.id, before.name, before.args + chunk)
  }

  /** While the stream runs the assembler is given all of it, as it comes. */
  lemma {:induction false} FedAsTold(events: seq<Event>, i: int)
    ensures At(Fed(events), i) == Told(events, i)
    decreases |events|
  {
    if events != [] {
      var before, e := events[..|events| - 1], events[|events| - 1];
      assert events == before + [e];
      FedAsTold(before, i);
      ForwardLast(before, e);
      FeedForwarded(Fed(before), e);
      var slot := At(Fed(before), i);
      Nothing(slot.name);
      Nothing(slot.args);
    }
  }

  /** Over every stream, the assembler holds what the stream remembers having forwarded if and only
      if, at each index, the last opening follows no name, no arguments and no id it lacks itself. */
  lemma MirrorsIff(events: seq<Event>)
    ensures Mirrors(events) <==> OpensCleanly(events)
  {
    forall i: int ensures i in Fed(events) <==> i in Forward(events).streamed { FedAt(events, i); }
    forall i: int ensures At(Fed(events), i) == At(Forward(events).streamed, i) <==> CleanAt(events, i) {
      FedAt(events, i);
    }
    if OpensCleanly(events) {
      forall i | i in Fed(events) ensures Fed(events)[i] == Forward(events).streamed[i] {
        assert CleanAt(events, i);
      }
    }
  }

  /** Event by event: a stream that was mirrored stays so unless the event opens a call whose slot has
      a name or arguments, or an id where the event has none. */
  lemma MirrorStepIff(events: seq<Event>, e: Event)
    requires Mirrors(events)
    ensures var seen := At(Forward(events).streamed, e.index);
            Mirrors(events + [e]) <==>
            (e.CallOpened? ==> seen.name == "" && seen.args == "" && (seen.id == "" || e.id != ""))
  {
    var fed, streamed := Fed(events), Forward(events).streamed;
    ForwardLast(events, e);
    SlotStep(fed, streamed, e);
    FeedForwarded(fed, e);
    var fed', streamed' := FeedAll(fed, ForwardedBy(e)), Remembered(streamed, e);
    assert forall i :: i != e.index ==> (i in fed' <==> i in streamed') && At(fed', i) == At(streamed', i);
    assert fed' == streamed' <==> At(fed', e.index) == At(streamed', e.index);
  }

  /** A call announced again gets its name twice, though the stream remembers it once. */
  lemma ReopeningDoublesTheName(events: seq<Event>, e: Event)
    requires Mirrors(events) && e.CallOpened? && At(Forward(events).streamed, e.index).name != ""
    ensures At(Fed(events + [e]), e.index).name == At(Forward(events).streamed, e.index).name + e.name
    ensures At(Forward(events + [e]).streamed, e.index).name == e.name
    ensures !Mirrors(events + [e])
  {
    ForwardLast(events, e);
    FeedForwarded(Fed(events), e);
    MirrorStepIff(events, e);
  }

  /** Every call is opened at most once, before any of its arguments. */
  predicate OpenedOnce(events: seq<Event>) {
    events != [] ==>
      && OpenedOnce(events[..|events| - 1])
      && var last := events[|events| - 1];
         (last.CallOpened? ==> last.index !in Forward(events[..|events| - 1]).streamed)
  }

  /** The provider's usual order is clean. */
  lemma {:induction false} OpenedOnceIsClean(events: seq<Event>, i: int)
    requires OpenedOnce(events)
    ensures CleanAt(events, i)
    decreases |events|
  {
    if events != [] {
      FedAt(events[..|events| - 1], i);
      FedContents(events[..|events| - 1], i);
      OpenedOnceIsClean(events[..|events| - 1], i);
    }
  }

  // ---- Completing from the terminal response ----

  function FinalSlot(item: OutItem): Slot
    requires item.FunctionCall?
  {
    Slot(Or(item.callId, item.id), item.name, Or(item.args, "{}"))
  }

  predicate StartsWith(s: string, prefix: string) { |prefix| <= |s| && s[..|prefix|] == prefix }

  function MissingFor(index: int, item: OutItem, streamed: map<int, Slot>): seq<CallDelta> {
    if !item.FunctionCall? then []
    else
      var final := FinalSlot(item);
      if index !in streamed then [CallDelta(index, final.id, final.name, final.args)]
      else
        var seen := streamed[index];
        var id := if seen.id == "" then final.id else "";
        var name := if seen.name == "" then final.name else "";
        if StartsWith(final.args, seen.args) then
          if final.args != seen.args || id != "" || name != ""
          then [CallDelta(index, id, name, final.args[|seen.args|..])] else []
        else if id != "" || name != "" then [CallDelta(index, id, name, "")]
        else []
  }

  function Missing(output: seq<OutItem>, streamed: map<int, Slot>, from: nat): seq<CallDelta>
    requires from <= |output|
    decreases |output| - from
  {
    if from == |output| then [] else MissingFor(from, output[from], streamed) + Missing(output, streamed, from + 1)
  }

  method UnstreamedCallDeltas(output: seq<OutItem>, streamed: map<int, Slot>) returns (out: seq<CallDelta>)
    ensures out == Missing(output, streamed, 0)
  {
    out := [];
    for index := 0 to |output|
      invariant out + Missing(output, streamed, index) == Missing(output, streamed, 0)
    {
      ghost var before := out;
      var item := output[index];
      if item.FunctionCall? {
        var callId, finalArgs := Or(item.callId, item.id), Or(item.args, "{}");
        if index !in streamed {
          out := out + [CallDelta(index, callId, item.name, finalArgs)];
        } else {
          var Slot(seenId, seenName, partial) := streamed[index];
          var missingId := if seenId == "" then callId else "";
          var missingName := if seenName == "" then item.name else "";
          if StartsWith(finalArgs, partial) {
            if finalArgs != partial || missingId != "" || missingName != "" {
              out := out + [CallDelta(index, missingId, missingName, finalArgs[|partial|..])];
            }
          } else if missingId != "" || missingName != "" {
            out := out + [CallDelta(index, missingId, missingName, "")];
          }
        }
      }
      assert out == before + MissingFor(index, item, streamed);
      Reassociate(before, MissingFor(index, item, streamed), Missing(output, streamed, index + 1));
    }
  }

  predicate CallAt(output: seq<OutItem>, k: int) { 0 <= k < |output| && output[k].FunctionCall? }

  /** What the assembler ends with at the index of a final call. */
  function Merged(streamed: map<int, Slot>, k: int, item: OutItem): Slot
    requires item.FunctionCall?
  {
    var final := FinalSlot(item);
    if k !in streamed then final
    else
      var seen := streamed[k];
      Slot(Or(seen.id, final.id), Or(seen.name, final.name),
           if StartsWith(final.args, seen.args) then final.args else seen.args)
  }

  lemma CompleteOne(slots: map<int, Slot>, streamed: map<int, Slot>, k: int, item: OutItem)
    requires (k in slots <==> k in streamed) && (k in slots ==> slots[k] == streamed[k])
    ensures FeedAll(slots, MissingFor(k, item, streamed))
            == (if item.FunctionCall? then slots[k := Merged(streamed, k, item)] else slots)
  {
    var deltas := MissingFor(k, item, streamed);
    if deltas != [] {
      assert deltas[1..] == [];
      var final := FinalSlot(item);
      if k in streamed && StartsWith(final.args, streamed[k].args) {
        assert streamed[k].args + final.args[|streamed[k].args|..] == final.args;
      }
      Nothing(final.name);
      Nothing(final.args);
      assert FeedSlot(At(slots, k), deltas[0]) == Merged(streamed, k, item);
    } else if item.FunctionCall? {
      assert slots[k] == Merged(streamed, k, item);
    }
  }

  ghost predicate CompletedFrom(output: seq<OutItem>, streamed: map<int, Slot>, from: int, before: map<int, Slot>,
      after: map<int, Slot>) {
    && (forall k :: k in after <==> k in before || (from <= k && CallAt(output, k)))
    && (forall k :: k in after ==>
          after[k] == if from <= k && CallAt(output, k) then Merged(streamed, k, output[k]) else before[k])
  }

  lemma {:induction false} CompletionPointwise(output: seq<OutItem>, streamed: map<int, Slot>, from: nat,
      slots: map<int, Slot>)
    requires from <= |output|
    requires forall k :: k >= from ==> (k in slots <==> k in streamed) && (k in slots ==> slots[k] == streamed[k])
    ensures CompletedFrom(output, streamed, from, slots, FeedAll(slots, Missing(output, streamed, from)))
    decreases |output| - from
  {
    if from < |output| {
      var first := MissingFor(from, output[from], streamed);
      CompleteOne(slots, streamed, from, output[from]);
      var next := FeedAll(slots, first);
      FeedConcat(slots, first, Missing(output, streamed, from + 1));
      CompletionPointwise(output, streamed, from + 1, next);
      CompletedStep(output, streamed, from, slots, next, FeedAll(next, Missing(output, streamed, from + 1)));
    }
  }

  lemma CompletedStep(output: seq<OutItem>, streamed: map<int, Slot>, from: nat, slots: map<int, Slot>, next: map<int,
      Slot>, after: map<int, Slot>)
    requires from < |output|
    requires next == if output[from].FunctionCall? then slots[from := Merged(streamed, from, output[from])] else slots
    requires CompletedFrom(output, streamed, from + 1, next, after)
    ensures CompletedFrom(output, streamed, from, slots, after)
  {}

  /** A call as the terminal response gives it: by its call id, or else its id, and with an empty object
      for missing arguments. */
  function CallOf(item: OutItem): Slot
    requires item.FunctionCall?
  {
    Slot(if item.callId != "" then item.callId else item.id, item.name, if item.args != "" then item.args else "{}")
  }

  /** The calls of the terminal response, by output index. */
  function FinalSlots(output: seq<OutItem>): map<int, Slot> {
    map k: int | 0 <= k < |output| && output[k].FunctionCall? :: CallOf(output[k])
  }

  /** What was streamed for one index does not contradict the terminal response. */
  predicate AgreesAt(seen: Slot, final: Slot) {
    && (seen.id == "" || seen.id == final.id)
    && (seen.name == "" || seen.name == final.name)
    && StartsWith(final.args, seen.args)
  }

  predicate Agrees(streamed: map<int, Slot>, output: seq<OutItem>) {
    forall k :: k in streamed ==> CallAt(output, k) && AgreesAt(streamed[k], CallOf(output[k]))
  }

  lemma MergedIsFinalIff(streamed: map<int, Slot>, k: int, item: OutItem)
    requires item.FunctionCall?
    ensures Merged(streamed, k, item) == CallOf(item) <==> k in streamed ==> AgreesAt(streamed[k], CallOf(item))
  {}

  function Assembled(events: seq<Event>, output: seq<OutItem>): map<int, Slot> {
    var f := Forward(events);
    FeedAll(map[], f.deltas + Missing(output, f.streamed, 0))
  }

  /**
   Streamed deltas followed by completion deltas leave exactly the terminal response's calls
   in the assembler if and only if nothing streamed contradicts that response.
   */
  lemma AssembledExactly(events: seq<Event>, output: seq<OutItem>)
    requires OpensCleanly(events)
    ensures Assembled(events, output) == FinalSlots(output) <==> Agrees(Forward(events).streamed, output)
  {
    var f := Forward(events);
    var end := Assembled(events, output);
    FeedConcat(map[], f.deltas, Missing(output, f.streamed, 0));
    MirrorsIff(events);
    CompletionPointwise(output, f.streamed, 0, f.streamed);
    var final := FinalSlots(output);
    forall k | CallAt(output, k)
      ensures end[k] == final[k] <==> k in f.streamed ==> AgreesAt(f.streamed[k], CallOf(output[k]))
    {
      MergedIsFinalIff(f.streamed, k, output[k]);
    }
    if end == final {
      forall k | k in f.streamed ensures CallAt(output, k) && AgreesAt(f.streamed[k], CallOf(output[k])) {
        assert k in end;
        assert k in final;
      }
    }
    if Agrees(f.streamed, output) {
      assert forall k :: k in end <==> k in final;
      forall k | k in end ensures end[k] == final[k] {
        assert CallAt(output, k);
      }
    }
  }

  // ---- The executable list ----

  function NamedCalls(output: seq<OutItem>, from: nat): seq<Slot>
    requires from <= |output|
    decreases |output| - from
  {
    if from == |output| then []
    else (if output[from].FunctionCall? && output[from].name != "" then [CallOf(output[from])] else [])
         + NamedCalls(output, from + 1)
  }

  lemma SortedLeast(keys: set<int>, least: int)
    requires least in keys && forall k :: k in keys ==> least <= k
    ensures Sorted(keys) == [least] + Sorted(keys - {least})
  {}

  function CallKeys(output: seq<OutItem>, from: nat): set<int> {
    set k: int | from <= k < |output| && output[k].FunctionCall?
  }

  lemma SortedCalls(output: seq<OutItem>, from: nat)
    requires from < |output|
    ensures Sorted(CallKeys(output, from)) == (if output[from].FunctionCall? then [from] else [])
            + Sorted(CallKeys(output, from + 1))
  {
    var keys, rest := CallKeys(output, from), CallKeys(output, from + 1);
    if output[from].FunctionCall? {
      assert keys - {from} == rest;
      SortedLeast(keys, from);
    } else {
      assert keys == rest;
    }
  }

  lemma {:induction false} NamedInOrder(output: seq<OutItem>, from: nat)
    requires from <= |output|
    ensures NamedAt(FinalSlots(output), Sorted(CallKeys(output, from))) == NamedCalls(output, from)
    decreases |output| - from
  {
    if from < |output| {
      SortedCalls(output, from);
      NamedInOrder(output, from + 1);
      var rest := Sorted(CallKeys(output, from + 1));
      NamedAtCons(FinalSlots(output), from, rest);
      assert [] + rest == rest;
    } else {
      assert CallKeys(output, from) == {};
    }
  }

  /** Every agreeing stream ends in the terminal response's named calls, in order. */
  lemma StreamedCallsAreFinalCalls(events: seq<Event>, output: seq<OutItem>)
    requires OpensCleanly(events) && Agrees(Forward(events).streamed, output)
    ensures Completed(Assembled(events, output)) == NamedCalls(output, 0)
  {
    AssembledExactly(events, output);
    NamedInOrder(output, 0);
    assert FinalSlots(output).Keys == CallKeys(output, 0);
  }

  /** With nothing streamed, the completion deltas alone rebuild every named call. */
  lemma SilentStream(output: seq<OutItem>)
    ensures Completed(FeedAll(map[], Missing(output, map[], 0))) == NamedCalls(output, 0)
  {
    StreamedCallsAreFinalCalls([], output);
    assert Forward([]).deltas + Missing(output, map[], 0) == Missing(output, map[], 0);
  }
}
