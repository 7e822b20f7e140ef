/**
 A streamed thinking turn, end to end: its blocks and its tool calls both come from the same
 events, the calls through the shared assembler, and history replays them together.
 */
module AnthropicStream {
  import opened Common
  import opened ToolCallStream
  import opened AnthropicBlocks
  import opened AnthropicReplay

  // ---- The tool-call channel of a stream ----

  /** The call deltas an event is forwarded as: a tool call opens without arguments, and JSON
      text is passed on whatever block it belongs to. */
  function ChannelDeltas(e: StreamEvent): seq<CallDelta> {
    match e
    case Start(index, b) => if b.ToolUse? then [CallDelta(index, b.call.id, b.call.name, "")] else []
    case Delta(index, kind, chunk) => if kind == JsonDelta then [CallDelta(index, "", "", chunk)] else []
  }

  function AllChannelDeltas(events: seq<StreamEvent>): seq<CallDelta> {
    if events == [] then []
    else AllChannelDeltas(events[..|events| - 1]) + ChannelDeltas(events[|events| - 1])
  }

  function StreamedSlots(events: seq<StreamEvent>): map<int, Slot> { FeedAll(map[], AllChannelDeltas(events)) }

  function AsEntries(slots: seq<Slot>): seq<Entry> {
    seq(|slots|, i requires 0 <= i < |slots| => Entry(slots[i].id, slots[i].name, slots[i].args))
  }

  /** The entries history keeps of a streamed turn. */
  function StreamedEntries(events: seq<StreamEvent>): seq<Entry> { AsEntries(Completed(StreamedSlots(events))) }

  // ---- One index at a time ----

  function ChannelStep(slot: Option<Slot>, e: StreamEvent): Option<Slot> {
    var deltas := ChannelDeltas(e);
    if deltas == [] then slot else Some(FeedSlot(if slot.Some? then slot.value else BLANK, deltas[0]))
  }

  function ChannelFold(events: seq<StreamEvent>): Option<Slot> {
    if events == [] then None else ChannelStep(ChannelFold(events[..|events| - 1]), events[|events| - 1])
  }

  function CallSlot(slots: map<int, Slot>, i: int): Option<Slot> { if i in slots then Some(slots[i]) else None }

  lemma FeedOneEvent(slots: map<int, Slot>, e: StreamEvent, i: int)
    ensures CallSlot(FeedAll(slots, ChannelDeltas(e)), i)
         == if e.index == i then ChannelStep(CallSlot(slots, i), e) else CallSlot(slots, i)
  {
    var deltas := ChannelDeltas(e);
    if deltas != [] {
      assert deltas[1..] == [];
      assert FeedAll(slots, deltas) == slots[e.index := FeedSlot(At(slots, e.index), deltas[0])];
    }
  }

  /** Interleaving does not matter to the channel either. */
  lemma {:induction false} ChannelIsIndependent(events: seq<StreamEvent>, i: int)
    ensures CallSlot(StreamedSlots(events), i) == ChannelFold(Project(events, i))
  {
    if events != [] {
      var init, last := events[..|events| - 1], events[|events| - 1];
      ChannelIsIndependent(init, i);
      FeedConcat(map[], AllChannelDeltas(init), ChannelDeltas(last));
      FeedOneEvent(StreamedSlots(init), last, i);
      if last.index == i {
        var mine := Project(init, i) + [last];
        assert mine[..|mine| - 1] == Project(init, i) && mine[|mine| - 1] == last;
        assert Project(events, i) == mine;
      } else {
        assert Project(events, i) == Project(init, i);
      }
    }
  }

  /** A tool call's slot: what its start says, and all its JSON text. */
  lemma {:induction false} ToolSlot(start: StreamEvent, deltas: seq<StreamEvent>)
    requires start.Start? && start.block.ToolUse? && AllDeltas(deltas)
    ensures ChannelFold([start] + deltas)
         == Some(Slot(start.block.call.id, start.block.call.name, Chunks(deltas, JsonDelta)))
    decreases |deltas|
  {
    var all, call := [start] + deltas, start.block.call;
    if deltas == [] {
      assert all == [start] && [start][..0] == [];
      Nothing(call.name);
      Nothing("");
      assert FeedSlot(BLANK, CallDelta(start.index, call.id, call.name, "")) == Slot(call.id, call.name, "");
      assert ChannelFold([start]) == ChannelStep(None, start);
    } else {
      var init, last := deltas[..|deltas| - 1], deltas[|deltas| - 1];
      assert all[..|all| - 1] == [start] + init && all[|all| - 1] == last;
      ToolSlot(start, init);
      Nothing(call.name);
      Nothing(Chunks(init, JsonDelta));
    }
  }

  /** No tool call opened: the slot, if JSON text made one, has no name and is dropped. */
  lemma {:induction false} NamelessSlot(events: seq<StreamEvent>)
    requires forall i :: 0 <= i < |events| ==> !(events[i].Start? && events[i].block.ToolUse?)
    ensures ChannelFold(events).Some? ==> ChannelFold(events).value.name == ""
  {
    if events != [] {
      NamelessSlot(events[..|events| - 1]);
      assert !(events[|events| - 1].Start? && events[|events| - 1].block.ToolUse?);
    }
  }

  // ---- The assembled list ----

  function NamedKeys(slots: map<int, Slot>, keys: set<int>): set<int> {
    set k | k in keys && At(slots, k).name != ""
  }

  /** Slots without a name do not matter to what is completed. */
  lemma {:induction false} NamedKeysDecide(slots: map<int, Slot>, keys: set<int>)
    ensures NamedAt(slots, Sorted(keys)) == NamedAt(slots, Sorted(NamedKeys(slots, keys)))
    decreases |keys|
  {
    if keys == {} {
      assert NamedKeys(slots, keys) == {};
    } else {
      var least := SmallestOf(keys);
      var rest := keys - {least};
      SortedLeast(keys, least);
      NamedAtCons(slots, least, Sorted(rest));
      NamedKeysDecide(slots, rest);
      if At(slots, least).name != "" {
        assert NamedKeys(slots, keys) - {least} == NamedKeys(slots, rest);
        SortedLeast(NamedKeys(slots, keys), least);
        NamedAtCons(slots, least, Sorted(NamedKeys(slots, rest)));
      } else {
        assert NamedKeys(slots, keys) == NamedKeys(slots, rest);
      }
    }
  }

  predicate NamedTool(b: Block) { b.ToolUse? && b.call.name != "" }

  function ToolKeys(content: seq<Block>, from: nat): set<int> {
    set k: int | from <= k < |content| && NamedTool(content[k])
  }

  lemma SortedTools(content: seq<Block>, from: nat)
    requires from < |content|
    ensures Sorted(ToolKeys(content, from)) == (if NamedTool(content[from]) then [from] else [])
            + Sorted(ToolKeys(content, from + 1))
  {
    var keys, rest := ToolKeys(content, from), ToolKeys(content, from + 1);
    if NamedTool(content[from]) {
      assert keys - {from} == rest;
      SortedLeast(keys, from);
    } else {
      assert keys == rest;
    }
  }

  /** The JSON text received for block `i`. */
  function JsonText(events: seq<StreamEvent>, i: int): string {
    var mine := Project(events, i);
    if mine == [] then "" else Chunks(mine[1..], JsonDelta)
  }

  function ToolSlots(content: seq<Block>, events: seq<StreamEvent>, from: nat): seq<Slot>
    requires from <= |content|
    decreases |content| - from
  {
    if from == |content| then []
    else
      (if NamedTool(content[from])
       then [Slot(content[from].call.id, content[from].call.name, JsonText(events, from))] else [])
      + ToolSlots(content, events, from + 1)
  }

  ghost predicate ChannelReflects(slots: map<int, Slot>, content: seq<Block>, events: seq<StreamEvent>) {
    && (forall i :: i in slots && slots[i].name != "" ==> i in ToolKeys(content, 0))
    && (forall i :: i in ToolKeys(content, 0) ==>
          i in slots && slots[i] == Slot(content[i].call.id, content[i].call.name, JsonText(events, i)))
  }

  lemma SpelledCall(events: seq<StreamEvent>, content: seq<Block>, loads: Loads, i: int)
    requires Spells(events, content, loads)
    ensures var slot := CallSlot(StreamedSlots(events), i);
            if 0 <= i < |content| && content[i].ToolUse?
            then slot == Some(Slot(content[i].call.id, content[i].call.name, JsonText(events, i)))
            else slot.Some? ==> slot.value.name == ""
  {
    var mine := Project(events, i);
    ChannelIsIndependent(events, i);
    if 0 <= i < |content| && !content[i].Unknown? {
      assert SpellsBlock(mine, content[i], loads);
      assert mine == [mine[0]] + mine[1..];
      if content[i].ToolUse? {
        ToolSlot(mine[0], mine[1..]);
      } else {
        assert forall k :: 0 < k < |mine| ==> mine[k] == mine[1..][k - 1];
        NamelessSlot(mine);
      }
    } else {
      assert OpensNothing(mine);
      NamelessSlot(mine);
    }
  }

  lemma {:induction false} SlotsInOrder(slots: map<int, Slot>, content: seq<Block>, events: seq<StreamEvent>, from: nat)
    requires from <= |content| && ChannelReflects(slots, content, events)
    ensures NamedAt(slots, Sorted(ToolKeys(content, from))) == ToolSlots(content, events, from)
    decreases |content| - from
  {
    if from == |content| {
      assert ToolKeys(content, from) == {};
    } else {
      SortedTools(content, from);
      SlotsInOrder(slots, content, events, from + 1);
      var rest := Sorted(ToolKeys(content, from + 1));
      NamedAtCons(slots, from, rest);
      assert [] + rest == rest;
      assert NamedTool(content[from]) ==> from in ToolKeys(content, 0);
    }
  }

  /** The calls assembled from a stream that spells a turn are the turn's named calls, in order. */
  lemma StreamedCallsOfTurn(events: seq<StreamEvent>, content: seq<Block>, loads: Loads)
    requires Spells(events, content, loads)
    ensures Completed(StreamedSlots(events)) == ToolSlots(content, events, 0)
  {
    var slots := StreamedSlots(events);
    forall i ensures (i in slots && slots[i].name != "" ==> i in ToolKeys(content, 0))
                     && (i in ToolKeys(content, 0) ==>
                           i in slots && slots[i] == Slot(content[i].call.id, content[i].call.name,
                               JsonText(events, i)))
    {
      SpelledCall(events, content, loads, i);
    }
    NamedKeysDecide(slots, slots.Keys);
    assert NamedKeys(slots, slots.Keys) == ToolKeys(content, 0);
    SlotsInOrder(slots, content, events, 0);
  }

  // ---- Replay ----

  /** The input the channel carries for a call. */
  function ChannelInput(text: string, loads: Loads): Json {
    var parsed := loads(if text == "" then "{}" else text);
    if parsed.Some? then SentInput(parsed.value) else EMPTY_OBJECT
  }

  /** The turn with the inputs its channel carries. */
  function Channelled(content: seq<Block>, events: seq<StreamEvent>, loads: Loads, from: nat): seq<Block>
    requires from <= |content|
    decreases |content| - from
  {
    if from == |content| then []
    else
      [if content[from].ToolUse?
       then ToolUse(content[from].call.(input := ChannelInput(JsonText(events, from), loads))) else content[from]]
      + Channelled(content, events, loads, from + 1)
  }

  lemma {:induction false} ChannelledLike(content: seq<Block>, events: seq<StreamEvent>, loads: Loads, from: nat)
    requires from <= |content|
    ensures var out := Channelled(content, events, loads, from);
            && |out| == |content| - from
            && forall i :: 0 <= i < |out| ==>
                 out[i] == if content[from + i].ToolUse?
                           then
                             var input := ChannelInput(JsonText(events, from + i), loads);
                             ToolUse(content[from + i].call.(input := input))
                           else content[from + i]
    decreases |content| - from
  {
    if from < |content| {
      ChannelledLike(content, events, loads, from + 1);
    }
  }

  predicate AlikeBlock(a: Block, b: Block) {
    if a.ToolUse? then b.ToolUse? && a.call.id == b.call.id && a.call.name == b.call.name else a == b
  }

  /** The same blocks but for the inputs of tool calls. */
  predicate Alike(a: seq<Block>, b: seq<Block>) {
    |a| == |b| && forall i :: 0 <= i < |a| ==> AlikeBlock(a[i], b[i])
  }

  lemma {:induction false} AlikeReplay(a: seq<Block>, b: seq<Block>, remaining: seq<Call>)
    requires Alike(a, b)
    ensures ReplayBlocks(a, remaining) == ReplayBlocks(b, remaining)
    decreases |a|
  {
    if a != [] {
      assert AlikeBlock(a[0], b[0]);
      assert Alike(a[1..], b[1..]) by {
        assert forall i :: 0 <= i < |a| - 1 ==> a[1..][i] == a[i + 1] && b[1..][i] == b[i + 1];
      }
      if a[0].ToolUse? {
        var k := IndexOf(remaining, a[0].call.id);
        AlikeReplay(a[1..], b[1..], if k < |remaining| then Without(remaining, k) else remaining);
      } else {
        AlikeReplay(a[1..], b[1..], remaining);
      }
    }
  }

  lemma {:induction false} AlikeBatch(a: seq<Block>, b: seq<Block>)
    requires Alike(a, b)
    ensures Alike(BatchBlocks(a), BatchBlocks(b)) && Ids(a) == Ids(b) && (DistinctIds(a) <==> DistinctIds(b))
    decreases |a|
  {
    if a != [] {
      assert AlikeBlock(a[0], b[0]);
      assert Alike(a[1..], b[1..]) by {
        assert forall i :: 0 <= i < |a| - 1 ==> a[1..][i] == a[i + 1] && b[1..][i] == b[i + 1];
      }
      AlikeBatch(a[1..], b[1..]);
    }
  }

  lemma {:induction false} ChannelConverts(content: seq<Block>, events: seq<StreamEvent>, loads: Loads, from: nat)
    requires from <= |content|
    ensures Converted(AsEntries(ToolSlots(content, events, from)), loads)
            == CallsOf(Channelled(content, events, loads, from))
    decreases |content| - from
  {
    if from < |content| {
      var rest, later := ToolSlots(content, events, from + 1), Channelled(content, events, loads, from + 1);
      ChannelConverts(content, events, loads, from + 1);
      ChannelConvertsOne(content[from], JsonText(events, from), rest, later, loads);
    }
  }

  lemma ChannelConvertsOne(b: Block, text: string, rest: seq<Slot>, later: seq<Block>, loads: Loads)
    requires Converted(AsEntries(rest), loads) == CallsOf(later)
    ensures var slots := (if NamedTool(b) then [Slot(b.call.id, b.call.name, text)] else []) + rest;
            var block := if b.ToolUse? then ToolUse(b.call.(input := ChannelInput(text, loads))) else b;
            Converted(AsEntries(slots), loads) == CallsOf([block] + later)
  {
    var block := if b.ToolUse? then ToolUse(b.call.(input := ChannelInput(text, loads))) else b;
    assert ([block] + later)[1..] == later;
    if NamedTool(b) {
      var slot := Slot(b.call.id, b.call.name, text);
      assert AsEntries([slot] + rest)[1..] == AsEntries(rest);
      assert SentInput(ChannelInput(text, loads)) == ChannelInput(text, loads);
    } else {
      assert [] + rest == rest;
    }
  }

  /**
   A streamed thinking turn, with the calls assembled from its own events, replays as the
   provider's blocks in the provider's order, each call with the input its JSON text spells.
   */
  lemma StreamedTurnReplays(events: seq<StreamEvent>, content: seq<Block>, loads: Loads)
    requires Spells(events, content, loads) && DistinctIds(content)
    ensures ReplayTurn(AnthropicReplay.Blocks(StreamedBlocks(events, loads)), StreamedEntries(events), loads)
         == Clean(Channelled(content, events, loads, 0))
  {
    var sent := Channelled(content, events, loads, 0);
    StreamedEqualsBatch(events, content, loads);
    StreamedCallsOfTurn(events, content, loads);
    ChannelConverts(content, events, loads, 0);
    ChannelledLike(content, events, loads, 0);
    assert Alike(content, sent);
    AlikeBatch(content, sent);
    CallsAreUnique(sent);
    DictOfUnique(CallsOf(sent));
    AlikeReplay(BatchBlocks(content), BatchBlocks(sent), CallsOf(sent));
    ReplayIsClean(sent);
  }

  // ---- When nothing of the input is lost ----

  /** JSON as the adapter relies on it: the empty object reads back, and no text is no value. */
  predicate ReadsJson(loads: Loads) { loads("{}") == Some(EMPTY_OBJECT) && loads("") == None }

  /** The input of a call that can be sent came as JSON text, or there was none. */
  predicate InputStreamed(b: Block, events: seq<StreamEvent>) {
    b.ToolUse? && Sendable(b) != [] ==>
      HasKind(events, JsonDelta) || SentInput(b.call.input) == EMPTY_OBJECT
  }

  lemma ChannelInputExact(mine: seq<StreamEvent>, b: Block, loads: Loads)
    requires ReadsJson(loads) && b.ToolUse? && SpellsBlock(mine, b, loads)
    ensures ChannelInput(Chunks(mine[1..], JsonDelta), loads) == SentInput(b.call.input)
       <==> HasKind(mine[1..], JsonDelta) || SentInput(b.call.input) == EMPTY_OBJECT
  {
    NoJsonNoText(mine[1..]);
  }

  lemma {:induction false} CleanEqualIff(a: seq<Block>, b: seq<Block>)
    requires Alike(a, b)
    ensures Clean(a) == Clean(b) <==> forall i :: 0 <= i < |a| ==> Sendable(a[i]) == Sendable(b[i])
    decreases |a|
  {
    if a != [] {
      assert AlikeBlock(a[0], b[0]);
      var as', bs' := a[1..], b[1..];
      assert forall i :: 0 <= i < |as'| ==> as'[i] == a[i + 1] && bs'[i] == b[i + 1];
      CleanEqualIff(as', bs');
      assert |Sendable(a[0])| == |Sendable(b[0])| <= 1;
      PrefixEqualIff(Sendable(a[0]), Clean(as'), Sendable(b[0]), Clean(bs'));
      assert (forall i :: 0 <= i < |a| ==> Sendable(a[i]) == Sendable(b[i]))
        <==> Sendable(a[0]) == Sendable(b[0]) && forall i :: 0 <= i < |as'| ==> Sendable(as'[i]) == Sendable(bs'[i]);
    }
  }

  lemma PrefixEqualIff<T>(a: seq<T>, s: seq<T>, b: seq<T>, t: seq<T>)
    requires |a| == |b|
    ensures a + s == b + t <==> a == b && s == t
  {
    if a + s == b + t {
      assert (a + s)[..|a|] == a && (b + t)[..|b|] == b;
      assert (a + s)[|a|..] == s && (b + t)[|b|..] == t;
    }
  }

  /**
   A streamed thinking turn replays as the provider's own blocks if and only if every call
   that can be sent had its input streamed as JSON text, or has none: an input given whole
   when the block opens never reaches the tool-call channel.
   */
  lemma StreamedTurnRestoresIff(events: seq<StreamEvent>, content: seq<Block>, loads: Loads)
    requires Spells(events, content, loads) && DistinctIds(content) && ReadsJson(loads)
    ensures ReplayTurn(AnthropicReplay.Blocks(StreamedBlocks(events, loads)), StreamedEntries(events), loads)
            == Clean(content)
       <==> forall i :: 0 <= i < |content| && content[i].ToolUse? ==> InputStreamed(content[i], Project(events, i)[1..])
  {
    StreamedTurnReplays(events, content, loads);
    ChannelKeepsIff(events, content, loads);
  }

  /** The inputs the channel carries are the provider's own. */
  lemma ChannelKeepsIff(events: seq<StreamEvent>, content: seq<Block>, loads: Loads)
    requires Spells(events, content, loads) && ReadsJson(loads)
    ensures Clean(Channelled(content, events, loads, 0)) == Clean(content)
       <==> forall i :: 0 <= i < |content| && content[i].ToolUse? ==> InputStreamed(content[i], Project(events, i)[1..])
  {
    var sent := Channelled(content, events, loads, 0);
    ChannelledLike(content, events, loads, 0);
    assert Alike(sent, content);
    CleanEqualIff(sent, content);
    forall i | 0 <= i < |content|
      ensures Sendable(sent[i]) == Sendable(content[i])
         <==> content[i].ToolUse? ==> InputStreamed(content[i], Project(events, i)[1..])
    {
      SentAlikeIff(events, content, loads, i);
    }
  }

  lemma SentAlikeIff(events: seq<StreamEvent>, content: seq<Block>, loads: Loads, i: nat)
    requires Spells(events, content, loads) && ReadsJson(loads) && i < |content|
    ensures |Channelled(content, events, loads, 0)| == |content|
    ensures content[i].ToolUse? ==> Project(events, i) != []
    ensures Sendable(Channelled(content, events, loads, 0)[i]) == Sendable(content[i])
       <==> content[i].ToolUse? ==> InputStreamed(content[i], Project(events, i)[1..])
  {
    ChannelledLike(content, events, loads, 0);
    var mine := Project(events, i);
    if content[i].ToolUse? {
      assert SpellsBlock(mine, content[i], loads);
      ChannelInputExact(mine, content[i], loads);
      SentOnceMore(JsonText(events, i), loads);
    }
  }

  lemma SentOnceMore(text: string, loads: Loads)
    ensures SentInput(ChannelInput(text, loads)) == ChannelInput(text, loads)
  {}
}
