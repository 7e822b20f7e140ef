/**
 Assistant turns on the Messages wire format: a streamed turn rebuilt block by block, the
 same turn read whole, and the replay of either from history.
 JSON text is opaque: `loads` and `dumps` are parameters.
 */
module AnthropicBlocks {
  import opened Common
  import opened ToolCallStream

  /** `truthy` matters only because empty values are replaced by the empty object. */
  datatype Json = Object(code: int) | OtherValue(code: int, truthy: bool)

  const EMPTY_OBJECT := Object(0)

  type Loads = string -> Option<Json>

  function OrEmpty(j: Json): Json { if j.OtherValue? && !j.truthy then EMPTY_OBJECT else j }

  datatype Call = Call(id: string, name: string, input: Json)

  datatype Block =
    | Text(text: string)
    | Thinking(thinking: string, signature: string)
    | Redacted(data: string)
    | ToolUse(call: Call)
    | Unknown

  // ---- Streaming ----

  datatype Kind = TextDelta | ThinkingDelta | SignatureDelta | JsonDelta

  datatype StreamEvent = Start(index: int, block: Block) | Delta(index: int, kind: Kind, chunk: string)

  /** A block under construction and the JSON text received for it. */
  datatype Building = Building(block: Block, partial: Option<string>)

  function Started(b: Block): Building {
    Building(if b.ToolUse? then ToolUse(b.call.(input := OrEmpty(b.call.input))) else b, None)
  }

  /** A delta that does not fit the block it names is ignored. */
  function Grow(slot: Building, kind: Kind, chunk: string): Building {
    match (slot.block, kind)
    case (Text(text), TextDelta) => slot.(block := Text(text + chunk))
    case (Thinking(thinking, signature), ThinkingDelta) => slot.(block := Thinking(thinking + chunk, signature))
    case (Thinking(thinking, signature), SignatureDelta) => slot.(block := Thinking(thinking, signature + chunk))
    case (ToolUse(_), JsonDelta) =>
      slot.(partial := Some((if slot.partial.Some? then slot.partial.value else "") + chunk))
    case _ => slot
  }

  function StepSlot(slot: Option<Building>, e: StreamEvent): Option<Building> {
    match e
    case Start(_, b) => if b.Unknown? then slot else Some(Started(b))
    case Delta(_, kind, chunk) => if slot.None? then None else Some(Grow(slot.value, kind, chunk))
  }

  function SlotAt(slots: map<int, Building>, i: int): Option<Building> {
    if i in slots then Some(slots[i]) else None
  }

  function StepAll(slots: map<int, Building>, e: StreamEvent): map<int, Building> {
    var slot := StepSlot(SlotAt(slots, e.index), e);
    if slot.None? then slots else slots[e.index := slot.value]
  }

  function Assemble(events: seq<StreamEvent>): map<int, Building> {
    if events == [] then map[] else StepAll(Assemble(events[..|events| - 1]), events[|events| - 1])
  }

  /** The final form of a streamed block: JSON text that does not parse gives an empty object. */
  function Settle(slot: Building, loads: Loads): Block {
    if slot.partial.Some? && slot.block.ToolUse? then
      var parsed := loads(slot.partial.value);
      ToolUse(slot.block.call.(input := if parsed.Some? then parsed.value else EMPTY_OBJECT))
    else slot.block
  }

  function SettleAt(slots: map<int, Building>, keys: seq<int>, loads: Loads): seq<Block> {
    if keys == [] then []
    else (if keys[0] in slots then [Settle(slots[keys[0]], loads)] else []) + SettleAt(slots, keys[1..], loads)
  }

  function StreamedBlocks(events: seq<StreamEvent>, loads: Loads): seq<Block> {
    var slots := Assemble(events);
    SettleAt(slots, Sorted(slots.Keys), loads)
  }

  method StreamBlocks(events: seq<StreamEvent>, loads: Loads) returns (ordered: seq<Block>)
    ensures ordered == StreamedBlocks(events, loads)
  {
    var slots: map<int, Building> := map[];
    for i := 0 to |events|
      invariant slots == Assemble(events[..i])
    {
      assert events[..i + 1][..i] == events[..i] && events[..i + 1][i] == events[i];
      match events[i]
      case Start(index, b) =>
        if b.ToolUse? {
          slots := slots[index := Building(ToolUse(Call(b.call.id, b.call.name, OrEmpty(b.call.input))), None)];
        } else if !b.Unknown? {
          slots := slots[index := Building(b, None)];
        }
      case Delta(index, kind, chunk) =>
        if index in slots {
          slots := slots[index := Grow(slots[index], kind, chunk)];
        }
    }
    assert events[..|events|] == events;
    ordered := SettleSlots(slots, loads);
  }

  method SettleSlots(slots: map<int, Building>, loads: Loads) returns (ordered: seq<Block>)
    ensures ordered == SettleAt(slots, Sorted(slots.Keys), loads)
  {
    var keys := Sorted(slots.Keys);
    ordered := [];
    ghost var goal := SettleAt(slots, keys, loads);
    assert keys[0..] == keys;
    for i := 0 to |keys|
      invariant ordered + SettleAt(slots, keys[i..], loads) == goal
    {
      SettleAtFrom(slots, keys, i, loads);
      SortedHolds(slots.Keys, keys[i]);
      var block := Settle(slots[keys[i]], loads);
      Reassociate(ordered, [block], SettleAt(slots, keys[i + 1..], loads));
      ordered := ordered + [block];
    }
  }

  lemma SettleAtCons(slots: map<int, Building>, k: int, rest: seq<int>, loads: Loads)
    ensures SettleAt(slots, [k] + rest, loads)
         == (if k in slots then [Settle(slots[k], loads)] else []) + SettleAt(slots, rest, loads)
  {
    assert ([k] + rest)[1..] == rest;
  }

  lemma SettleAtFrom(slots: map<int, Building>, keys: seq<int>, i: nat, loads: Loads)
    requires i < |keys|
    ensures SettleAt(slots, keys[i..], loads)
         == (if keys[i] in slots then [Settle(slots[keys[i]], loads)] else []) + SettleAt(slots, keys[i + 1..], loads)
  {
    assert keys[i..] == [keys[i]] + keys[i + 1..];
    SettleAtCons(slots, keys[i], keys[i + 1..], loads);
  }

  // ---- One index at a time ----

  function Project(events: seq<StreamEvent>, i: int): seq<StreamEvent> {
    if events == [] then []
    else
      var last := events[|events| - 1];
      Project(events[..|events| - 1], i) + (if last.index == i then [last] else [])
  }

  function Fold(events: seq<StreamEvent>): Option<Building> {
    if events == [] then None else StepSlot(Fold(events[..|events| - 1]), events[|events| - 1])
  }

  /** Interleaving does not matter: each slot is made by its own events alone. */
  lemma {:induction false} SlotsAreIndependent(events: seq<StreamEvent>, i: int)
    ensures SlotAt(Assemble(events), i) == Fold(Project(events, i))
  {
    if events != [] {
      var init, last := events[..|events| - 1], events[|events| - 1];
      SlotsAreIndependent(init, i);
      if last.index == i {
        var mine := Project(init, i) + [last];
        assert mine[..|mine| - 1] == Project(init, i) && mine[|mine| - 1] == last;
        assert Project(events, i) == mine;
      } else {
        assert Project(events, i) == Project(init, i);
      }
    }
  }

  /** What the deltas of one kind spell. */
  function Chunks(events: seq<StreamEvent>, kind: Kind): string {
    if events == [] then ""
    else
      var last := events[|events| - 1];
      Chunks(events[..|events| - 1], kind) + (if last.Delta? && last.kind == kind then last.chunk else "")
  }

  predicate HasKind(events: seq<StreamEvent>, kind: Kind) {
    events != [] && (HasKind(events[..|events| - 1], kind)
        || (events[|events| - 1].Delta? && events[|events| - 1].kind == kind))
  }

  predicate AllDeltas(events: seq<StreamEvent>) {
    forall i :: 0 <= i < |events| ==> events[i].Delta?
  }

  function Grown(b: Block, deltas: seq<StreamEvent>): Building {
    match b
    case Text(text) => Building(Text(text + Chunks(deltas, TextDelta)), None)
    case Thinking(thinking, signature) =>
      Building(Thinking(thinking + Chunks(deltas, ThinkingDelta), signature + Chunks(deltas, SignatureDelta)), None)
    case ToolUse(_) =>
      Building(Started(b).block, if HasKind(deltas, JsonDelta) then Some(Chunks(deltas, JsonDelta)) else None)
    case _ => Building(b, None)
  }

  lemma {:induction false} FoldGrows(start: StreamEvent, deltas: seq<StreamEvent>)
    requires start.Start? && !start.block.Unknown? && AllDeltas(deltas)
    ensures Fold([start] + deltas) == Some(Grown(start.block, deltas))
    decreases |deltas|
  {
    var all := [start] + deltas;
    if deltas == [] {
      assert all == [start] && [start][..0] == [];
      Nothing(if start.block.Text? then start.block.text else "");
      if start.block.Thinking? {
        Nothing(start.block.thinking);
        Nothing(start.block.signature);
      }
      assert Fold([start]) == Some(Started(start.block));
    } else {
      var init, last := deltas[..|deltas| - 1], deltas[|deltas| - 1];
      assert all[..|all| - 1] == [start] + init && all[|all| - 1] == last;
      FoldGrows(start, init);
      GrownStep(start.block, init, last);
      assert deltas == init + [last];
    }
  }

  lemma GrownStep(b: Block, init: seq<StreamEvent>, last: StreamEvent)
    requires last.Delta? && !b.Unknown?
    ensures Grow(Grown(b, init), last.kind, last.chunk) == Grown(b, init + [last])
  {
    var deltas := init + [last];
    assert deltas[..|deltas| - 1] == init && deltas[|deltas| - 1] == last;
    NoJsonNoText(init);
    forall kind ensures Chunks(deltas, kind) == Chunks(init, kind) + (if last.kind == kind then last.chunk else "") {}
    match b
    case Text(text) =>
      Reassociate(text, Chunks(init, TextDelta), last.chunk);
      Nothing(Chunks(init, TextDelta));
    case Thinking(thinking, signature) =>
      Reassociate(thinking, Chunks(init, ThinkingDelta), last.chunk);
      Reassociate(signature, Chunks(init, SignatureDelta), last.chunk);
      Nothing(Chunks(init, ThinkingDelta));
      Nothing(Chunks(init, SignatureDelta));
    case ToolUse(_) =>
      Nothing(Chunks(init, JsonDelta));
      Nothing(last.chunk);
    case Redacted(_) =>
  }

  lemma {:induction false} NoJsonNoText(events: seq<StreamEvent>)
    ensures !HasKind(events, JsonDelta) ==> Chunks(events, JsonDelta) == ""
  {
    if events != [] {
      NoJsonNoText(events[..|events| - 1]);
    }
  }

  // ---- Streams that spell a turn ----

  /** The block as both paths record it. */
  function Recorded(b: Block): Block { Started(b).block }

  /** An input as history keeps it: a value that counts as empty is the empty object. */
  function Normal(j: Json): Json {
    match j
    case OtherValue(_, false) => EMPTY_OBJECT
    case _ => j
  }

  predicate InputSpelled(started: Json, deltas: seq<StreamEvent>, input: Json, loads: Loads) {
    if HasKind(deltas, JsonDelta) then
      var parsed := loads(Chunks(deltas, JsonDelta));
      Normal(input) == if parsed.Some? then parsed.value else EMPTY_OBJECT
    else Normal(started) == Normal(input)
  }

  /** One start, then deltas that add up to `b`. */
  predicate SpellsBlock(events: seq<StreamEvent>, b: Block, loads: Loads) {
    && events != [] && events[0].Start? && AllDeltas(events[1..])
    && var deltas := events[1..];
       match (events[0].block, b) {
         case (Text(head), Text(full)) => full == head + Chunks(deltas, TextDelta)
         case (Thinking(head, sig), Thinking(full, signature)) =>
           full == head + Chunks(deltas, ThinkingDelta) && signature == sig + Chunks(deltas, SignatureDelta)
         case (Redacted(data), Redacted(full)) => data == full
         case (ToolUse(c), ToolUse(full)) =>
           c.id == full.id && c.name == full.name && InputSpelled(c.input, deltas, full.input, loads)
         case _ => false
       }
  }

  /** No block the adapter knows was opened. */
  predicate OpensNothing(events: seq<StreamEvent>) {
    forall i :: 0 <= i < |events| ==> !(events[i].Start? && !events[i].block.Unknown?)
  }

  ghost predicate Spells(events: seq<StreamEvent>, content: seq<Block>, loads: Loads) {
    forall i {:trigger Project(events, i)} ::
      if 0 <= i < |content| && !content[i].Unknown? then SpellsBlock(Project(events, i), content[i], loads)
      else OpensNothing(Project(events, i))
  }

  lemma SpelledBlock(events: seq<StreamEvent>, b: Block, loads: Loads)
    requires SpellsBlock(events, b, loads)
    ensures Fold(events).Some? && Settle(Fold(events).value, loads) == Recorded(b)
  {
    assert events == [events[0]] + events[1..];
    FoldGrows(events[0], events[1..]);
  }

  lemma {:induction false} NothingOpened(events: seq<StreamEvent>)
    requires OpensNothing(events)
    ensures Fold(events) == None
  {
    if events != [] {
      NothingOpened(events[..|events| - 1]);
      assert !(events[|events| - 1].Start? && !events[|events| - 1].block.Unknown?);
    }
  }

  // ---- The same turn read whole ----

  function BatchBlocks(content: seq<Block>): seq<Block> {
    if content == [] then []
    else (if content[0].Unknown? then [] else [Recorded(content[0])]) + BatchBlocks(content[1..])
  }

  /** What history keeps of a block: nothing of one the adapter does not know, a call with its input
      made normal, anything else as it came. */
  function KeptAs(b: Block): seq<Block> {
    match b
    case Unknown => []
    case ToolUse(Call(id, name, input)) => [ToolUse(Call(id, name, Normal(input)))]
    case _ => [b]
  }

  lemma {:induction false} BatchIsContent(content: seq<Block>)
    ensures BatchBlocks(content) == Flatten(seq(|content|, i requires 0 <= i < |content| => KeptAs(content[i])))
  {
    var per := seq(|content|, i requires 0 <= i < |content| => KeptAs(content[i]));
    if content != [] {
      var rest := content[1..];
      BatchIsContent(rest);
      assert per[1..] == seq(|rest|, i requires 0 <= i < |rest| => KeptAs(rest[i]));
    }
  }

  function KnownKeys(content: seq<Block>, from: nat): set<int> {
    set k: int | from <= k < |content| && !content[k].Unknown?
  }

  lemma SortedKnown(content: seq<Block>, from: nat)
    requires from < |content|
    ensures Sorted(KnownKeys(content, from))
            == (if content[from].Unknown? then [] else [from]) + Sorted(KnownKeys(content, from + 1))
  {
    var keys, rest := KnownKeys(content, from), KnownKeys(content, from + 1);
    if content[from].Unknown? {
      assert keys == rest;
    } else {
      assert keys - {from} == rest;
      SortedLeast(keys, from);
    }
  }

  predicate Reflects(slots: map<int, Building>, content: seq<Block>, loads: Loads) {
    forall i :: 0 <= i < |content| && !content[i].Unknown?
        ==> i in slots && Settle(slots[i], loads) == Recorded(content[i])
  }

  lemma {:induction false} SettledInOrder(slots: map<int, Building>, content: seq<Block>, loads: Loads, from: nat)
    requires from <= |content| && Reflects(slots, content, loads)
    ensures SettleAt(slots, Sorted(KnownKeys(content, from)), loads) == BatchBlocks(content[from..])
    decreases |content| - from
  {
    if from == |content| {
      assert KnownKeys(content, from) == {};
    } else {
      SortedKnown(content, from);
      SettledInOrder(slots, content, loads, from + 1);
      var rest := Sorted(KnownKeys(content, from + 1));
      SettleAtCons(slots, from, rest, loads);
      assert [] + rest == rest;
      assert content[from..][0] == content[from] && content[from..][1..] == content[from + 1..];
    }
  }

  /**
   Every event sequence that spells a turn, however its blocks are interleaved, streams to
   the block list that reading the turn whole gives.
   */
  lemma StreamedEqualsBatch(events: seq<StreamEvent>, content: seq<Block>, loads: Loads)
    requires Spells(events, content, loads)
    ensures StreamedBlocks(events, loads) == BatchBlocks(content)
    ensures StreamedBlocks(events, loads)
         == Flatten(seq(|content|, i requires 0 <= i < |content| => KeptAs(content[i])))
  {
    BatchIsContent(content);
    var slots := Assemble(events);
    forall i ensures i in slots <==> i in KnownKeys(content, 0) {
      SpelledSlot(events, content, loads, i);
    }
    assert slots.Keys == KnownKeys(content, 0);
    forall i | 0 <= i < |content| && !content[i].Unknown? ensures i in slots
        && Settle(slots[i], loads) == Recorded(content[i]) {
      SpelledSlot(events, content, loads, i);
    }
    SettledInOrder(slots, content, loads, 0);
    assert content[0..] == content;
  }

  lemma SpelledSlot(events: seq<StreamEvent>, content: seq<Block>, loads: Loads, i: int)
    requires Spells(events, content, loads)
    ensures var slots := Assemble(events);
            if 0 <= i < |content| && !content[i].Unknown? then i in slots
                && Settle(slots[i], loads) == Recorded(content[i])
            else i !in slots
  {
    SlotsAreIndependent(events, i);
    if 0 <= i < |content| && !content[i].Unknown? {
      SpelledBlock(Project(events, i), content[i], loads);
    } else {
      NothingOpened(Project(events, i));
    }
  }
}
