/**
 Reading a Messages response whole and replaying the turn from history. History keeps the
 native block list of a thinking turn; the tool-call channel stays authoritative, native
 blocks only supply order.
 */
module AnthropicReplay {
  import opened Common
  import opened AnthropicBlocks
  import ResponsesReplay

  type Dumps = Json -> string

  /** A tool-call entry of the canonical history message. */
  datatype Entry = Entry(id: string, name: string, args: string)

  datatype Content = Blocks(blocks: seq<Block>) | Plain(text: string)

  // ---- Reading a response ----

  function TextParts(content: seq<Block>): seq<string> {
    if content == [] then [] else (if content[0].Text? then [content[0].text] else []) + TextParts(content[1..])
  }

  predicate IsThinking(b: Block) { b.Thinking? || b.Redacted? }

  predicate HasThinking(content: seq<Block>) { exists i :: 0 <= i < |content| && IsThinking(content[i]) }

  function EntryOf(b: Block, dumps: Dumps): seq<Entry> {
    if b.ToolUse? then [Entry(b.call.id, b.call.name, dumps(OrEmpty(b.call.input)))] else []
  }

  function EntriesOf(content: seq<Block>, dumps: Dumps): seq<Entry> {
    if content == [] then []
    else
      EntryOf(content[0], dumps) + EntriesOf(content[1..], dumps)
  }

  function ResponseContent(content: seq<Block>): Content {
    if HasThinking(content) then Blocks(BatchBlocks(content)) else Plain(ResponsesReplay.JoinLines(TextParts(content)))
  }

  /** What a longer prefix adds. */
  lemma {:induction false} TextAppend(content: seq<Block>, b: Block)
    ensures TextParts(content + [b]) == TextParts(content) + TextParts([b])
  {
    if content == [] {
      assert content + [b] == [b];
    } else {
      assert (content + [b])[1..] == content[1..] + [b] && (content + [b])[0] == content[0];
      TextAppend(content[1..], b);
      Reassociate(if content[0].Text? then [content[0].text] else [], TextParts(content[1..]), TextParts([b]));
    }
  }

  lemma {:induction false} BatchAppend(content: seq<Block>, b: Block)
    ensures BatchBlocks(content + [b]) == BatchBlocks(content) + BatchBlocks([b])
  {
    if content == [] {
      assert content + [b] == [b];
    } else {
      assert (content + [b])[1..] == content[1..] + [b] && (content + [b])[0] == content[0];
      BatchAppend(content[1..], b);
      Reassociate(if content[0].Unknown? then []
          else [Recorded(content[0])], BatchBlocks(content[1..]), BatchBlocks([b]));
    }
  }

  lemma {:induction false} EntriesAppend(content: seq<Block>, b: Block, dumps: Dumps)
    ensures EntriesOf(content + [b], dumps) == EntriesOf(content, dumps) + EntriesOf([b], dumps)
  {
    if content == [] {
      assert content + [b] == [b];
    } else {
      assert (content + [b])[1..] == content[1..] + [b] && (content + [b])[0] == content[0];
      EntriesAppend(content[1..], b, dumps);
      Reassociate(EntryOf(content[0], dumps), EntriesOf(content[1..], dumps), EntriesOf([b], dumps));
    }
  }

  lemma ReadOne(b: Block, dumps: Dumps)
    ensures TextParts([b]) == if b.Text? then [b.text] else []
    ensures BatchBlocks([b]) == if b.Unknown? then [] else [Recorded(b)]
    ensures EntriesOf([b], dumps) == EntryOf(b, dumps)
  {
    assert [b][1..] == [];
  }

  lemma ReadStep(content: seq<Block>, i: nat, dumps: Dumps)
    requires i < |content|
    ensures var b := content[i];
            && TextParts(content[..i + 1]) == TextParts(content[..i]) + (if b.Text? then [b.text] else [])
            && BatchBlocks(content[..i + 1]) == BatchBlocks(content[..i]) + (if b.Unknown? then [] else [Recorded(b)])
            && EntriesOf(content[..i + 1], dumps) == EntriesOf(content[..i], dumps) + EntryOf(b, dumps)
  {
    assert content[..i + 1] == content[..i] + [content[i]];
    TextAppend(content[..i], content[i]);
    BatchAppend(content[..i], content[i]);
    EntriesAppend(content[..i], content[i], dumps);
    ReadOne(content[i], dumps);
  }

  method ToLlmResponse(content: seq<Block>, dumps: Dumps) returns (out: Content, entries: seq<Entry>)
    ensures out == ResponseContent(content) && entries == EntriesOf(content, dumps)
  {
    var texts: seq<string>, blocks: seq<Block>, thinking := [], [], false;
    entries := [];
    for i := 0 to |content|
      invariant texts == TextParts(content[..i]) && blocks == BatchBlocks(content[..i])
      invariant entries == EntriesOf(content[..i], dumps)
      invariant thinking <==> exists j :: 0 <= j < i && IsThinking(content[j])
    {
      var block := content[i];
      ReadStep(content, i, dumps);
      if block.Text? {
        texts, blocks := texts + [block.text], blocks + [block];
      } else if block.Thinking? || block.Redacted? {
        thinking, blocks := true, blocks + [block];
      } else if block.ToolUse? {
        var input := OrEmpty(block.call.input);
        blocks := blocks + [ToolUse(Call(block.call.id, block.call.name, input))];
        entries := entries + [Entry(block.call.id, block.call.name, dumps(input))];
      }
    }
    assert content[..|content|] == content;
    out := if thinking then Blocks(blocks) else Plain(ResponsesReplay.JoinLines(texts));
  }

  // ---- Replaying a turn ----

  function AsObject(j: Json): Json { if j.Object? then j else EMPTY_OBJECT }

  /** `_to_anthropic_tool_use`: nothing without an id and a name; arguments degrade to `{}`. */
  function ToToolUse(e: Entry, loads: Loads): Option<Call> {
    if e.id == "" || e.name == "" then None
    else
      var parsed := loads(if e.args == "" then "{}" else e.args);
      Some(Call(e.id, e.name, if parsed.Some? then AsObject(parsed.value) else EMPTY_OBJECT))
  }

  function Converted(entries: seq<Entry>, loads: Loads): seq<Call> {
    if entries == [] then []
    else
      (if ToToolUse(entries[0], loads).Some? then [ToToolUse(entries[0], loads).value] else [])
      + Converted(entries[1..], loads)
  }

  function IndexOf(calls: seq<Call>, id: string): (k: nat)
    ensures k <= |calls| && (k < |calls| ==> calls[k].id == id)
  {
    if calls == [] then 0 else if calls[0].id == id then 0 else 1 + IndexOf(calls[1..], id)
  }

  /** An insertion-ordered dictionary by id: a repeated id keeps its place and takes the new call. */
  function Insert(dict: seq<Call>, c: Call): seq<Call> {
    var k := IndexOf(dict, c.id);
    if k < |dict| then dict[k := c] else dict + [c]
  }

  function DictOf(calls: seq<Call>): seq<Call> {
    if calls == [] then [] else Insert(DictOf(calls[..|calls| - 1]), calls[|calls| - 1])
  }

  function AsBlocks(calls: seq<Call>): seq<Block> {
    seq(|calls|, i requires 0 <= i < |calls| => ToolUse(calls[i]))
  }

  function Without(calls: seq<Call>, k: nat): seq<Call>
    requires k < |calls|
  {
    calls[..k] + calls[k + 1..]
  }

  function ReplayBlocks(blocks: seq<Block>, remaining: seq<Call>): seq<Block>
    decreases |blocks|
  {
    if blocks == [] then AsBlocks(remaining)
    else
      match blocks[0]
      case Text(text) => (if text != "" then [blocks[0]] else []) + ReplayBlocks(blocks[1..], remaining)
      case ToolUse(call) =>
        var k := IndexOf(remaining, call.id);
        if k < |remaining| then [ToolUse(remaining[k])] + ReplayBlocks(blocks[1..], Without(remaining, k))
        else ReplayBlocks(blocks[1..], remaining)
      case Unknown => ReplayBlocks(blocks[1..], remaining)
      case _ => [blocks[0]] + ReplayBlocks(blocks[1..], remaining)
  }

  function ReplayTurn(content: Content, entries: seq<Entry>, loads: Loads): seq<Block> {
    var calls := DictOf(Converted(entries, loads));
    match content
    case Blocks(blocks) => ReplayBlocks(blocks, calls)
    case Plain(text) => (if text != "" then [Text(text)] else []) + AsBlocks(calls)
  }

  /** `_to_anthropic_msg` for an assistant turn: a turn with nothing to send is dropped. */
  method AssistantMessage(content: Content, entries: seq<Entry>, loads: Loads) returns (out: Option<seq<Block>>)
    ensures var blocks := ReplayTurn(content, entries, loads);
            out == if blocks == [] then None else Some(blocks)
  {
    var calls := ConvertCalls(entries, loads);
    var remaining := CollectCalls(calls);
    var blocks: seq<Block>;
    if content.Blocks? {
      blocks := ReplayNative(content.blocks, remaining);
    } else {
      blocks := (if content.text != "" then [Text(content.text)] else []) + AsBlocks(remaining);
    }
    out := if blocks == [] then None else Some(blocks);
  }

  method ReplayNative(native: seq<Block>, calls: seq<Call>) returns (blocks: seq<Block>)
    ensures blocks == ReplayBlocks(native, calls)
  {
    var remaining := calls;
    blocks := [];
    for i := 0 to |native|
      invariant blocks + ReplayBlocks(native[i..], remaining) == ReplayBlocks(native, calls)
    {
      var block := native[i];
      ghost var rest := native[i + 1..];
      assert native[i..][0] == block && native[i..][1..] == rest;
      if block.Thinking? || block.Redacted? || (block.Text? && block.text != "") {
        Reassociate(blocks, [block], ReplayBlocks(rest, remaining));
        blocks := blocks + [block];
      } else if block.ToolUse? {
        var k := IndexOf(remaining, block.call.id);
        if k < |remaining| {
          Reassociate(blocks, [ToolUse(remaining[k])], ReplayBlocks(rest, Without(remaining, k)));
          blocks := blocks + [ToolUse(remaining[k])];
          remaining := Without(remaining, k);
        }
      } else {
        assert ReplayBlocks(native[i..], remaining) == ReplayBlocks(rest, remaining);
      }
    }
    blocks := blocks + AsBlocks(remaining);
  }

  lemma {:induction false} ConvertedAppend(entries: seq<Entry>, e: Entry, loads: Loads)
    ensures Converted(entries + [e], loads)
         == Converted(entries, loads) + (if ToToolUse(e, loads).Some? then [ToToolUse(e, loads).value] else [])
  {
    if entries == [] {
      assert entries + [e] == [e] && [e][1..] == [];
    } else {
      assert (entries + [e])[1..] == entries[1..] + [e] && (entries + [e])[0] == entries[0];
      ConvertedAppend(entries[1..], e, loads);
      Reassociate(if ToToolUse(entries[0], loads).Some? then [ToToolUse(entries[0], loads).value] else [],
                  Converted(entries[1..], loads),
                  if ToToolUse(e, loads).Some? then [ToToolUse(e, loads).value] else []);
    }
  }

  method ConvertCalls(entries: seq<Entry>, loads: Loads) returns (calls: seq<Call>)
    ensures calls == Converted(entries, loads)
  {
    calls := [];
    for i := 0 to |entries|
      invariant calls == Converted(entries[..i], loads)
    {
      assert entries[..i + 1] == entries[..i] + [entries[i]];
      ConvertedAppend(entries[..i], entries[i], loads);
      var call := ToToolUse(entries[i], loads);
      if call.Some? {
        calls := calls + [call.value];
      }
    }
    assert entries[..|entries|] == entries;
  }

  method CollectCalls(calls: seq<Call>) returns (dict: seq<Call>)
    ensures dict == DictOf(calls)
  {
    dict := [];
    for i := 0 to |calls|
      invariant dict == DictOf(calls[..i])
    {
      assert calls[..i + 1][..i] == calls[..i] && calls[..i + 1][i] == calls[i];
      dict := Insert(dict, calls[i]);
    }
    assert calls[..|calls|] == calls;
  }

  // ---- Whatever history holds ----

  function ThinkingOf(blocks: seq<Block>): seq<Block> {
    if blocks == [] then [] else (if IsThinking(blocks[0]) then [blocks[0]] else []) + ThinkingOf(blocks[1..])
  }

  function CallsIn(blocks: seq<Block>): seq<Call> {
    if blocks == [] then [] else (if blocks[0].ToolUse? then [blocks[0].call] else []) + CallsIn(blocks[1..])
  }

  lemma {:induction false} CallsAsBlocks(calls: seq<Call>)
    ensures CallsIn(AsBlocks(calls)) == calls && ThinkingOf(AsBlocks(calls)) == []
    decreases |calls|
  {
    if calls != [] {
      assert AsBlocks(calls)[1..] == AsBlocks(calls[1..]);
      CallsAsBlocks(calls[1..]);
    }
  }

  lemma ReplayCons(b: Block, rest: seq<Block>)
    ensures ThinkingOf([b] + rest) == (if IsThinking(b) then [b] else []) + ThinkingOf(rest)
    ensures CallsIn([b] + rest) == (if b.ToolUse? then [b.call] else []) + CallsIn(rest)
  {
    assert ([b] + rest)[1..] == rest;
  }

  lemma WithoutMultiset(calls: seq<Call>, k: nat)
    requires k < |calls|
    ensures multiset(calls) == multiset([calls[k]]) + multiset(Without(calls, k))
  {
    assert calls == calls[..k] + [calls[k]] + calls[k + 1..];
  }

  /** Signed and redacted thinking survives unmodified and in order, for every history. */
  lemma {:induction false} ReplayKeepsThinking(blocks: seq<Block>, remaining: seq<Call>)
    ensures ThinkingOf(ReplayBlocks(blocks, remaining)) == ThinkingOf(blocks)
    decreases |blocks|
  {
    if blocks == [] {
      CallsAsBlocks(remaining);
    } else {
      var k := if blocks[0].ToolUse? then IndexOf(remaining, blocks[0].call.id) else |remaining|;
      var left := if k < |remaining| then Without(remaining, k) else remaining;
      ReplayKeepsThinking(blocks[1..], left);
      ReplayCons(if k < |remaining| then ToolUse(remaining[k]) else blocks[0], ReplayBlocks(blocks[1..], left));
      assert [] + ReplayBlocks(blocks[1..], left) == ReplayBlocks(blocks[1..], left);
    }
  }

  /** Every call still in the dictionary is sent exactly once, whatever the native blocks say. */
  lemma {:induction false} CallsSentExactlyOnce(blocks: seq<Block>, remaining: seq<Call>)
    ensures multiset(CallsIn(ReplayBlocks(blocks, remaining))) == multiset(remaining)
    decreases |blocks|
  {
    if blocks == [] {
      CallsAsBlocks(remaining);
    } else {
      var k := if blocks[0].ToolUse? then IndexOf(remaining, blocks[0].call.id) else |remaining|;
      var left := if k < |remaining| then Without(remaining, k) else remaining;
      CallsSentExactlyOnce(blocks[1..], left);
      var rest := ReplayBlocks(blocks[1..], left);
      assert [] + rest == rest;
      if k < |remaining| {
        WithoutMultiset(remaining, k);
        ReplayCons(ToolUse(remaining[k]), rest);
        assert CallsIn(ReplayBlocks(blocks, remaining)) == [remaining[k]] + CallsIn(rest);
      } else {
        ReplayCons(blocks[0], rest);
        assert CallsIn(ReplayBlocks(blocks, remaining)) == CallsIn(rest);
      }
    }
  }

  /** The texts of the blocks, empty ones left out. */
  function TextsIn(blocks: seq<Block>): seq<string> {
    if blocks == [] then []
    else (match blocks[0] case Text(text) => if text == "" then [] else [text] case _ => []) + TextsIn(blocks[1..])
  }

  lemma TextsCons(b: Block, rest: seq<Block>)
    ensures TextsIn([b] + rest) == (if b.Text? && b.text != "" then [b.text] else []) + TextsIn(rest)
  {
    assert ([b] + rest)[1..] == rest;
  }

  lemma {:induction false} NoTextInCalls(calls: seq<Call>)
    ensures TextsIn(AsBlocks(calls)) == []
    decreases |calls|
  {
    if calls != [] {
      assert AsBlocks(calls)[1..] == AsBlocks(calls[1..]);
      NoTextInCalls(calls[1..]);
    }
  }

  lemma {:induction false} ReplayKeepsBlockText(blocks: seq<Block>, remaining: seq<Call>)
    ensures TextsIn(ReplayBlocks(blocks, remaining)) == TextsIn(blocks)
    decreases |blocks|
  {
    if blocks == [] {
      NoTextInCalls(remaining);
    } else {
      var k := if blocks[0].ToolUse? then IndexOf(remaining, blocks[0].call.id) else |remaining|;
      var left := if k < |remaining| then Without(remaining, k) else remaining;
      var rest := ReplayBlocks(blocks[1..], left);
      ReplayKeepsBlockText(blocks[1..], left);
      TextsCons(if k < |remaining| then ToolUse(remaining[k]) else blocks[0], rest);
      assert [] + rest == rest;
    }
  }

  /** Every turn sends its texts that are not empty, in order, and no other text. */
  lemma ReplayKeepsText(content: Content, entries: seq<Entry>, loads: Loads)
    ensures TextsIn(ReplayTurn(content, entries, loads))
         == match content
            case Blocks(blocks) => TextsIn(blocks)
            case Plain(text) => if text == "" then [] else [text]
  {
    var calls := DictOf(Converted(entries, loads));
    match content
    case Blocks(blocks) => ReplayKeepsBlockText(blocks, calls);
    case Plain(text) =>
      NoTextInCalls(calls);
      TextsCons(Text(text), AsBlocks(calls));
      assert [] + AsBlocks(calls) == AsBlocks(calls);
  }

  /** An entry converts if and only if it has an id and a name, and keeps both; its input is the object
      its arguments spell, or else the empty object. */
  lemma EntryConverts(e: Entry, loads: Loads)
    ensures ToToolUse(e, loads).Some? <==> e.id != "" && e.name != ""
    ensures ToToolUse(e, loads).Some? ==>
              var call, parsed := ToToolUse(e, loads).value, loads(if |e.args| > 0 then e.args else "{}");
              && call.id == e.id && call.name == e.name
              && call.input == (match parsed case Some(Object(code)) => Object(code) case _ => EMPTY_OBJECT)
  {}

  // ---- A turn read from the provider ----

  /** Some block is signed or redacted thinking. */
  predicate HasSigned(content: seq<Block>) {
    exists i :: 0 <= i < |content| && (content[i].Thinking? || content[i].Redacted?)
  }

  /** An input as it is sent: an object, or else the empty one. */
  function SentInput(j: Json): Json { if j.Object? then j else EMPTY_OBJECT }

  /** The block the provider must see again, if it is one that can be sent. */
  function Sendable(b: Block): seq<Block> {
    match b
    case Text(text) => if text != "" then [b] else []
    case ToolUse(call) =>
      if call.id == "" || call.name == "" then []
      else [ToolUse(Call(call.id, call.name, SentInput(call.input)))]
    case Unknown => []
    case _ => [b]
  }

  function Clean(content: seq<Block>): seq<Block> {
    if content == [] then [] else Sendable(content[0]) + Clean(content[1..])
  }

  function CallsOf(content: seq<Block>): seq<Call> {
    if content == [] then []
    else
      (if content[0].ToolUse? && Sendable(content[0]) != [] then [Sendable(content[0])[0].call] else [])
          + CallsOf(content[1..])
  }

  function Ids(content: seq<Block>): set<string> {
    if content == [] then {}
    else (if content[0].ToolUse? && content[0].call.id != "" then {content[0].call.id} else {}) + Ids(content[1..])
  }

  /** No id is used by two tool calls. */
  predicate DistinctIds(content: seq<Block>) {
    content != [] ==>
      && (content[0].ToolUse? ==> content[0].call.id !in Ids(content[1..]))
      && DistinctIds(content[1..])
  }

  predicate Inverse(loads: Loads, dumps: Dumps, j: Json) {
    dumps(j) != "" && loads(dumps(j)) == Some(j)
  }

  /** Each input written as JSON text reads back as itself. */
  predicate ReadsBack(content: seq<Block>, loads: Loads, dumps: Dumps) {
    forall i :: 0 <= i < |content| && content[i].ToolUse? ==> Inverse(loads, dumps, Normal(content[i].call.input))
  }

  lemma {:induction false} EntriesConvert(content: seq<Block>, loads: Loads, dumps: Dumps)
    requires ReadsBack(content, loads, dumps)
    ensures Converted(EntriesOf(content, dumps), loads) == CallsOf(content)
  {
    if content != [] {
      var entries := EntriesOf(content[1..], dumps);
      EntriesConvert(content[1..], loads, dumps);
      if content[0].ToolUse? {
        var call := content[0].call;
        assert Inverse(loads, dumps, Normal(call.input));
        var e := Entry(call.id, call.name, dumps(OrEmpty(call.input)));
        assert EntriesOf(content, dumps) == [e] + entries && ([e] + entries)[1..] == entries;
      } else {
        assert EntriesOf(content, dumps) == entries;
      }
    }
  }

  lemma {:induction false} CallsHaveIds(content: seq<Block>, i: nat)
    requires i < |CallsOf(content)|
    ensures CallsOf(content)[i].id in Ids(content) && CallsOf(content)[i].id != ""
    decreases |content|
  {
    var own := |CallsOf(content)| - |CallsOf(content[1..])|;
    if i >= own {
      CallsHaveIds(content[1..], i - own);
    }
  }

  predicate Unique(calls: seq<Call>) { forall i, j :: 0 <= i < j < |calls| ==> calls[i].id != calls[j].id }

  lemma {:induction false} CallsAreUnique(content: seq<Block>)
    requires DistinctIds(content)
    ensures Unique(CallsOf(content))
  {
    if content != [] {
      CallsAreUnique(content[1..]);
      var rest := CallsOf(content[1..]);
      forall i | 0 <= i < |rest| ensures rest[i].id in Ids(content[1..]) {
        CallsHaveIds(content[1..], i);
      }
    }
  }

  lemma {:induction false} Absent(calls: seq<Call>, id: string)
    requires forall i :: 0 <= i < |calls| ==> calls[i].id != id
    ensures IndexOf(calls, id) == |calls|
  {}

  lemma {:induction false} DictOfUnique(calls: seq<Call>)
    requires Unique(calls)
    ensures DictOf(calls) == calls
  {
    if calls != [] {
      var init, last := calls[..|calls| - 1], calls[|calls| - 1];
      DictOfUnique(init);
      Absent(init, last.id);
    }
  }

  lemma ReplayToolUse(b: Block, rest: seq<Block>, blocks: seq<Block>, calls: seq<Call>)
    requires b.ToolUse? && calls == CallsOf(rest) && DistinctIds([b] + rest)
    ensures ReplayBlocks([Recorded(b)] + blocks, CallsOf([b] + rest)) == Sendable(b) + ReplayBlocks(blocks, calls)
  {
    assert ([b] + rest)[1..] == rest && ([Recorded(b)] + blocks)[1..] == blocks;
    if Sendable(b) != [] {
      var sent := Sendable(b)[0].call;
      assert CallsOf([b] + rest) == [sent] + calls;
      assert IndexOf([sent] + calls, b.call.id) == 0;
      assert Without([sent] + calls, 0) == calls;
    } else {
      assert CallsOf([b] + rest) == calls;
      forall i | 0 <= i < |calls| ensures calls[i].id != b.call.id {
        CallsHaveIds(rest, i);
      }
      Absent(calls, b.call.id);
      assert [] + ReplayBlocks(blocks, calls) == ReplayBlocks(blocks, calls);
    }
  }

  lemma ReplayOther(b: Block, rest: seq<Block>, blocks: seq<Block>, calls: seq<Call>)
    requires !b.ToolUse? && calls == CallsOf(rest)
    ensures CallsOf([b] + rest) == calls
    ensures ReplayBlocks((if b.Unknown? then [] else [Recorded(b)]) + blocks, calls)
            == Sendable(b) + ReplayBlocks(blocks, calls)
  {
    assert ([b] + rest)[1..] == rest && ([Recorded(b)] + blocks)[1..] == blocks;
    assert [] + blocks == blocks;
    assert [] + ReplayBlocks(blocks, calls) == ReplayBlocks(blocks, calls);
  }

  lemma {:induction false} ReplayIsClean(content: seq<Block>)
    requires DistinctIds(content)
    ensures ReplayBlocks(BatchBlocks(content), CallsOf(content)) == Clean(content)
    decreases |content|
  {
    if content == [] {
      assert AsBlocks([]) == [];
    } else {
      var b, rest := content[0], content[1..];
      ReplayIsClean(rest);
      assert content == [b] + rest;
      if b.ToolUse? {
        ReplayToolUse(b, rest, BatchBlocks(rest), CallsOf(rest));
      } else {
        ReplayOther(b, rest, BatchBlocks(rest), CallsOf(rest));
      }
    }
  }

  /** A thinking turn read whole replays as the provider's own blocks, in its own order. */
  lemma BatchReplayRestores(content: seq<Block>, loads: Loads, dumps: Dumps)
    requires HasSigned(content) && DistinctIds(content) && ReadsBack(content, loads, dumps)
    ensures ReplayTurn(ResponseContent(content), EntriesOf(content, dumps), loads) == Clean(content)
  {
    var i :| 0 <= i < |content| && (content[i].Thinking? || content[i].Redacted?);
    assert IsThinking(content[i]);
    EntriesConvert(content, loads, dumps);
    CallsAreUnique(content);
    DictOfUnique(CallsOf(content));
    ReplayIsClean(content);
  }

  /** Where text `i` begins when all of them, empty ones too, stand on lines of their own. */
  function LineStart(texts: seq<string>, i: nat): nat
    requires i <= |texts|
  {
    if i == 0 then 0 else LineStart(texts, i - 1) + |texts[i - 1]| + 1
  }

  /** Text `i` stands at its place, after a line break unless it is the first. */
  predicate HasLine(body: string, texts: seq<string>, i: nat)
    requires i < |texts|
  {
    var at := LineStart(texts, i);
    SitsAt(body, at, texts[i]) && (i > 0 ==> 0 < at <= |body| && body[at - 1] == '\n')
  }

  predicate Lines(body: string, texts: seq<string>) {
    && (if texts == [] then body == "" else |body| + 1 == LineStart(texts, |texts|))
    && forall i :: 0 <= i < |texts| ==> HasLine(body, texts, i)
  }

  lemma {:induction false} LineStartCons(text: string, texts: seq<string>, i: nat)
    requires i <= |texts|
    ensures LineStart([text] + texts, i + 1) == |text| + 1 + LineStart(texts, i)
    decreases i
  {
    if i > 0 {
      LineStartCons(text, texts, i - 1);
      assert ([text] + texts)[i] == texts[i - 1];
    } else {
      assert LineStart([text] + texts, 0) == 0;
    }
  }

  lemma LaterLine(text: string, body: string, texts: seq<string>, i: nat)
    requires i < |texts| && HasLine(body, texts, i)
    ensures HasLine(text + "\n" + body, [text] + texts, i + 1)
  {
    var head := text + "\n";
    LineStartCons(text, texts, i);
    SitsLater(head, body, LineStart(texts, i), texts[i]);
    assert ([text] + texts)[i + 1] == texts[i];
    var at := LineStart(texts, i);
    assert (head + body)[|head| + at - 1] == if at == 0 then '\n' else body[at - 1];
    if i == 0 {
      assert at == 0;
    }
  }

  lemma LinesCons(text: string, body: string, texts: seq<string>)
    requires texts != [] && Lines(body, texts)
    ensures Lines(text + "\n" + body, [text] + texts)
  {
    var all := [text] + texts;
    LineStartCons(text, texts, |texts|);
    forall i | 0 <= i < |all| ensures HasLine(text + "\n" + body, all, i) {
      if i > 0 {
        LaterLine(text, body, texts, i - 1);
      }
    }
  }

  lemma {:induction false} JoinedLines(texts: seq<string>)
    ensures Lines(ResponsesReplay.JoinLines(texts), texts)
    decreases |texts|
  {
    if |texts| > 1 {
      JoinedLines(texts[1..]);
      LinesCons(texts[0], ResponsesReplay.JoinLines(texts[1..]), texts[1..]);
      assert texts == [texts[0]] + texts[1..];
    }
  }

  function AllTexts(content: seq<Block>): seq<string> {
    Flatten(seq(|content|, i requires 0 <= i < |content| => if content[i].Text? then [content[i].text] else []))
  }

  lemma {:induction false} PartsAreTexts(content: seq<Block>)
    ensures TextParts(content) == AllTexts(content)
  {
    var per := seq(|content|, i requires 0 <= i < |content| => if content[i].Text? then [content[i].text] else []);
    if content != [] {
      var rest := content[1..];
      PartsAreTexts(rest);
      assert per[1..] == seq(|rest|, i requires 0 <= i < |rest| => if rest[i].Text? then [rest[i].text] else []);
    }
  }

  /** A turn without thinking replays as one text, in which each of its texts has its line, if that is
      not empty, and then its calls. */
  lemma PlainReplayRestores(content: seq<Block>, loads: Loads, dumps: Dumps) returns (body: string)
    requires !HasSigned(content) && DistinctIds(content) && ReadsBack(content, loads, dumps)
    ensures Lines(body, AllTexts(content))
    ensures ReplayTurn(ResponseContent(content), EntriesOf(content, dumps), loads)
         == (if body == "" then [] else [Text(body)]) + AsBlocks(CallsOf(content))
  {
    body := ResponsesReplay.JoinLines(TextParts(content));
    PartsAreTexts(content);
    JoinedLines(TextParts(content));
    EntriesConvert(content, loads, dumps);
    CallsAreUnique(content);
    DictOfUnique(CallsOf(content));
    assert !HasThinking(content);
  }

  /** The same turn streamed, under every interleaving, replays the same way. */
  lemma StreamedReplayRestores(events: seq<StreamEvent>, content: seq<Block>, loads: Loads, dumps: Dumps)
    requires Spells(events, content, loads)
    requires HasSigned(content) && DistinctIds(content) && ReadsBack(content, loads, dumps)
    ensures ReplayTurn(Blocks(StreamedBlocks(events, loads)), EntriesOf(content, dumps), loads) == Clean(content)
  {
    StreamedEqualsBatch(events, content, loads);
    BatchReplayRestores(content, loads, dumps);
  }

  // ---- Which calls of the channel are sent ----

  lemma {:induction false} IndexOfAbsent(calls: seq<Call>, id: string)
    ensures IndexOf(calls, id) == |calls| <==> forall i :: 0 <= i < |calls| ==> calls[i].id != id
  {
    if calls != [] {
      IndexOfAbsent(calls[1..], id);
      assert forall i :: 0 < i < |calls| ==> calls[i] == calls[1..][i - 1];
    }
  }

  /** A dictionary is as long as the list it was built from exactly when no id repeats. */
  lemma {:induction false} DictLength(calls: seq<Call>)
    ensures |DictOf(calls)| <= |calls|
    ensures |DictOf(calls)| == |calls| <==> Unique(calls)
  {
    if calls != [] {
      var init, last := calls[..|calls| - 1], calls[|calls| - 1];
      assert calls == init + [last];
      DictLength(init);
      if Unique(init) {
        DictOfUnique(init);
        IndexOfAbsent(init, last.id);
        UniqueAppend(init, last);
      }
    }
  }

  lemma UniqueAppend(init: seq<Call>, last: Call)
    ensures Unique(init + [last]) <==> Unique(init) && forall i :: 0 <= i < |init| ==> init[i].id != last.id
  {
    var all := init + [last];
    if Unique(all) {
      forall i, j | 0 <= i < j < |init| ensures init[i].id != init[j].id {
        assert all[i].id != all[j].id;
      }
      forall i | 0 <= i < |init| ensures init[i].id != last.id {
        assert all[i].id != all[|init|].id;
      }
    }
  }

  /** `c` is the last call of the list under its id. */
  ghost predicate LastUnderId(calls: seq<Call>, c: Call) {
    exists i :: 0 <= i < |calls| && calls[i] == c && forall j :: i < j < |calls| ==> calls[j].id != c.id
  }

  lemma LastUnderIdAppend(init: seq<Call>, last: Call, c: Call)
    ensures LastUnderId(init + [last], c) <==> c == last || (c.id != last.id && LastUnderId(init, c))
  {
    var all := init + [last];
    assert all[|init|] == last;
    if LastUnderId(all, c) && c != last {
      var i :| 0 <= i < |all| && all[i] == c && forall j :: i < j < |all| ==> all[j].id != c.id;
      assert init[i] == c && forall j :: i < j < |init| ==> init[j].id != c.id by {
        assert forall j :: i < j < |init| ==> all[j] == init[j];
      }
    }
    if c.id != last.id && LastUnderId(init, c) {
      var i :| 0 <= i < |init| && init[i] == c && forall j :: i < j < |init| ==> init[j].id != c.id;
      assert all[i] == c && forall j :: i < j < |all| ==> all[j].id != c.id;
    }
  }

  lemma InsertUnique(dict: seq<Call>, c: Call)
    requires Unique(dict)
    ensures Unique(Insert(dict, c))
    ensures forall x :: x in Insert(dict, c) <==> x == c || (x.id != c.id && x in dict)
  {
    var k, out := IndexOf(dict, c.id), Insert(dict, c);
    IndexOfAbsent(dict, c.id);
    if k < |dict| {
      forall x | x in dict && x.id != c.id ensures x in out {
        var i :| 0 <= i < |dict| && dict[i] == x;
        assert out[i] == x;
      }
      assert out[k] == c;
    } else {
      UniqueAppend(dict, c);
    }
  }

  /** Calls that share an id collapse: exactly the last call of each id is sent, once. */
  lemma {:induction false} SharedIdCollapses(calls: seq<Call>)
    ensures Unique(DictOf(calls))
    ensures forall c :: c in DictOf(calls) <==> LastUnderId(calls, c)
  {
    if calls != [] {
      var init, last := calls[..|calls| - 1], calls[|calls| - 1];
      assert calls == init + [last];
      SharedIdCollapses(init);
      InsertUnique(DictOf(init), last);
      forall c ensures c in DictOf(calls) <==> LastUnderId(calls, c) {
        LastUnderIdAppend(init, last, c);
      }
    }
  }

  lemma TurnSendsDict(content: Content, entries: seq<Entry>, loads: Loads)
    ensures multiset(CallsIn(ReplayTurn(content, entries, loads))) == multiset(DictOf(Converted(entries, loads)))
  {
    var calls := DictOf(Converted(entries, loads));
    match content
    case Blocks(blocks) => CallsSentExactlyOnce(blocks, calls);
    case Plain(text) =>
      CallsAsBlocks(calls);
      ReplayCons(Text(text), AsBlocks(calls));
      assert [] + AsBlocks(calls) == AsBlocks(calls);
  }

  /** A turn sends each convertible call of its channel exactly once if and only if no two of
      them share an id, whatever its native blocks say. */
  lemma ChannelSentExactlyOnceIff(content: Content, entries: seq<Entry>, loads: Loads)
    ensures multiset(CallsIn(ReplayTurn(content, entries, loads))) == multiset(Converted(entries, loads))
       <==> Unique(Converted(entries, loads))
  {
    var calls := Converted(entries, loads);
    TurnSendsDict(content, entries, loads);
    DictLength(calls);
    if Unique(calls) {
      DictOfUnique(calls);
    } else {
      assert |multiset(DictOf(calls))| == |DictOf(calls)| && |multiset(calls)| == |calls|;
    }
  }

  /** Every entry has an id and a name. */
  predicate AllNamed(entries: seq<Entry>) {
    forall i :: 0 <= i < |entries| ==> entries[i].id != "" && entries[i].name != ""
  }

  predicate DistinctEntries(entries: seq<Entry>) {
    forall i, j :: 0 <= i < j < |entries| ==> entries[i].id != entries[j].id
  }

  lemma {:induction false} ConvertedLength(entries: seq<Entry>, loads: Loads)
    ensures |Converted(entries, loads)| <= |entries|
    ensures |Converted(entries, loads)| == |entries| <==> AllNamed(entries)
    ensures AllNamed(entries) ==> forall i :: 0 <= i < |entries| ==> Converted(entries, loads)[i].id == entries[i].id
  {
    if entries != [] {
      ConvertedLength(entries[1..], loads);
      assert AllNamed(entries) <==> entries[0].id != "" && entries[0].name != "" && AllNamed(entries[1..]) by {
        assert forall i :: 0 < i < |entries| ==> entries[i] == entries[1..][i - 1];
      }
      assert forall i :: 0 < i < |entries| ==> entries[i] == entries[1..][i - 1];
    }
  }

  /** No entry of the channel is lost exactly when all have an id and a name and no id repeats. */
  lemma NoEntryLostIff(content: Content, entries: seq<Entry>, loads: Loads)
    ensures |CallsIn(ReplayTurn(content, entries, loads))| == |entries|
            <==> AllNamed(entries) && DistinctEntries(entries)
  {
    var calls, sent := Converted(entries, loads), CallsIn(ReplayTurn(content, entries, loads));
    TurnSendsDict(content, entries, loads);
    assert |multiset(sent)| == |sent| && |multiset(DictOf(calls))| == |DictOf(calls)|;
    DictLength(calls);
    ConvertedLength(entries, loads);
    if AllNamed(entries) {
      assert Unique(calls) <==> DistinctEntries(entries) by {
        forall i, j | 0 <= i < j < |entries| ensures calls[i].id == calls[j].id <==> entries[i].id == entries[j].id {}
      }
    }
  }
}
