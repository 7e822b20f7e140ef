/**
 What a replayed Responses turn says, without reference to how it is put together: where each
 text stands in the one message that replaces its gap, which calls go back and with what,
 and that a whole history keeps its tool results and other messages.
 */
module ResponsesText {
  import opened Common
  import opened ResponsesReplay

  // ---- One gap ----

  predicate Speaks(gap: seq<string>) { exists i :: 0 <= i < |gap| && gap[i] != "" }

  /** Where text `i` of a gap begins: every non-empty text before it and one line break each. */
  function Place(gap: seq<string>, i: nat): nat
    requires i <= |gap|
  {
    if i == 0 then 0 else Place(gap, i - 1) + if gap[i - 1] == "" then 0 else |gap[i - 1]| + 1
  }

  /** The body holds the non-empty texts of the gap, in order, one line break between two, no more. */
  predicate Spells(body: string, gap: seq<string>) {
    && |body| + 1 == Place(gap, |gap|)
    && forall i :: 0 <= i < |gap| ==> StandsAt(body, gap, i)
  }

  /** Text `i`, if not empty, stands at its place, after a line break unless it is the first. */
  predicate StandsAt(body: string, gap: seq<string>, i: nat)
    requires i < |gap|
  {
    var at := Place(gap, i);
    gap[i] != "" ==> SitsAt(body, at, gap[i]) && (at > 0 ==> at <= |body| && body[at - 1] == '\n')
  }

  /** A gap becomes one message that spells it, or nothing if it has no text. */
  predicate Says(items: seq<InItem>, gap: seq<string>) {
    if Speaks(gap) then |items| == 1 && items[0].MessageIn? && Spells(items[0].text, gap) else items == []
  }

  /** Each gap is said between the anchors around it. */
  predicate Woven(items: seq<InItem>, gaps: seq<seq<string>>, anchors: seq<InItem>)
    requires |gaps| == |anchors| + 1
    decreases |anchors|
  {
    if anchors == [] then Says(items, gaps[0])
    else
      var n := if Speaks(gaps[0]) then 1 else 0;
      n < |items| && Says(items[..n], gaps[0]) && items[n] == anchors[0]
      && Woven(items[n + 1..], gaps[1..], anchors[1..])
  }

  lemma {:induction false} PlaceCons(text: string, gap: seq<string>, i: nat)
    requires i <= |gap|
    ensures Place([text] + gap, i + 1) == (if text == "" then 0 else |text| + 1) + Place(gap, i)
    decreases i
  {
    if i > 0 {
      PlaceCons(text, gap, i - 1);
      assert ([text] + gap)[i] == gap[i - 1];
    } else {
      assert Place([text] + gap, 0) == 0;
    }
  }

  lemma {:induction false} Mute(gap: seq<string>)
    requires !Speaks(gap)
    ensures NonBlank(gap) == [] && Place(gap, |gap|) == 0
    decreases |gap|
  {
    if gap != [] {
      var rest := gap[1..];
      assert forall i :: 0 <= i < |rest| ==> rest[i] == gap[i + 1];
      Mute(rest);
      assert gap == [gap[0]] + rest;
      PlaceCons(gap[0], rest, |rest|);
    }
  }

  lemma SpeaksCons(gap: seq<string>)
    requires gap != []
    ensures Speaks(gap) <==> gap[0] != "" || Speaks(gap[1..])
  {
    if Speaks(gap[1..]) {
      var i :| 0 <= i < |gap[1..]| && gap[1..][i] != "";
      assert gap[i + 1] != "";
    }
    if Speaks(gap) && gap[0] == "" {
      var i :| 0 <= i < |gap| && gap[i] != "";
      assert gap[1..][i - 1] != "";
    }
  }

  /** An empty text in front changes nothing. */
  lemma SpellsSkip(body: string, gap: seq<string>)
    requires Spells(body, gap)
    ensures Spells(body, [""] + gap)
  {
    var all := [""] + gap;
    PlaceCons("", gap, |gap|);
    forall i | 0 < i < |all| ensures StandsAt(body, all, i) {
      PlaceCons("", gap, i - 1);
      assert StandsAt(body, gap, i - 1);
    }
  }

  /** A text in front of a gap that says nothing more. */
  lemma SpellsOnly(text: string, gap: seq<string>)
    requires text != "" && !Speaks(gap)
    ensures Spells(text, [text] + gap)
  {
    var all := [text] + gap;
    Mute(gap);
    PlaceCons(text, gap, |gap|);
    assert forall i :: 0 < i < |all| ==> all[i] == gap[i - 1];
  }

  /** A text, a line break, and what the rest of the gap spells. */
  lemma SpellsMore(text: string, body: string, gap: seq<string>)
    requires text != "" && Spells(body, gap)
    ensures Spells(text + "\n" + body, [text] + gap)
  {
    var all, whole, head := [text] + gap, text + "\n" + body, text + "\n";
    PlaceCons(text, gap, |gap|);
    forall i | 0 < i < |all| ensures StandsAt(whole, all, i) {
      assert StandsAt(body, gap, i - 1);
      PlaceCons(text, gap, i - 1);
      if gap[i - 1] != "" {
        SitsLater(head, body, Place(gap, i - 1), gap[i - 1]);
      }
    }
  }

  lemma {:induction false} JoinSpells(gap: seq<string>)
    requires Speaks(gap)
    ensures Joins(gap)
    decreases |gap|
  {
    var text, rest := gap[0], gap[1..];
    SpeaksCons(gap);
    if Speaks(rest) {
      JoinSpells(rest);
    }
    JoinStep(text, rest);
    assert gap == [text] + rest;
  }

  /** The joined texts of a gap spell it. */
  predicate Joins(gap: seq<string>) {
    var parts := NonBlank(gap);
    parts != [] && JoinLines(parts) != "" && Spells(JoinLines(parts), gap)
  }

  lemma JoinStep(text: string, rest: seq<string>)
    requires text != "" || Speaks(rest)
    requires Speaks(rest) ==> Joins(rest)
    ensures Joins([text] + rest)
  {
    var parts := NonBlank(rest);
    assert ([text] + rest)[1..] == rest;
    assert NonBlank([text] + rest) == (if text != "" then [text] else []) + parts;
    if !Speaks(rest) {
      Mute(rest);
      SpellsOnly(text, rest);
    } else if text == "" {
      assert [] + parts == parts && [text] + rest == [""] + rest;
      SpellsSkip(JoinLines(parts), rest);
    } else {
      SpellsMore(text, JoinLines(parts), rest);
      JoinCons(text, parts);
    }
  }

  lemma JoinCons(text: string, parts: seq<string>)
    requires parts != []
    ensures JoinLines([text] + parts) == text + "\n" + JoinLines(parts)
  {
    assert ([text] + parts)[1..] == parts;
  }

  /** A flushed buffer says its gap. */
  lemma FlushSays(gap: seq<string>)
    ensures Says(Flush(gap), gap)
  {
    if Speaks(gap) {
      JoinSpells(gap);
    } else {
      Mute(gap);
    }
  }

  lemma {:induction false} WeaveIsWoven(gaps: seq<seq<string>>, anchors: seq<InItem>)
    requires |gaps| == |anchors| + 1
    ensures Woven(Weave(gaps, anchors), gaps, anchors)
    decreases |anchors|
  {
    FlushSays(gaps[0]);
    if anchors != [] {
      var items, rest := Weave(gaps, anchors), Weave(gaps[1..], anchors[1..]);
      var n := |Flush(gaps[0])|;
      WeaveIsWoven(gaps[1..], anchors[1..]);
      assert items[..n] == Flush(gaps[0]) && items[n + 1..] == rest;
    }
  }

  /** Two bodies that spell one gap are the same: nothing in them is left open. */
  lemma {:induction false} SpellingIsUnique(a: string, b: string, gap: seq<string>)
    requires Spells(a, gap) && Spells(b, gap)
    ensures a == b
  {
    forall p | 0 <= p < |a| ensures a[p] == b[p] {
      var i := Covers(gap, p);
      assert StandsAt(a, gap, i) && StandsAt(b, gap, i);
      if p < Place(gap, i) + |gap[i]| {
        assert a[Place(gap, i) + (p - Place(gap, i))] == gap[i][p - Place(gap, i)];
      } else {
        NextPlace(gap, i);
        var k :| i < k < |gap| && gap[k] != "" && Place(gap, k) == Place(gap, i) + |gap[i]| + 1;
        assert StandsAt(a, gap, k) && StandsAt(b, gap, k);
      }
    }
  }

  /** The text whose characters or following line break stand at `p`. */
  lemma {:induction false} Covers(gap: seq<string>, p: nat) returns (i: nat)
    requires p < Place(gap, |gap|)
    ensures i < |gap| && gap[i] != "" && Place(gap, i) <= p <= Place(gap, i) + |gap[i]|
    decreases |gap|
  {
    i := |gap| - 1;
    if p < Place(gap, i) {
      PlaceFront(gap, i, i);
      i := Covers(gap[..i], p);
      PlaceFront(gap, |gap| - 1, i);
    }
  }

  lemma {:induction false} PlaceFront(gap: seq<string>, n: nat, i: nat)
    requires i <= n <= |gap|
    ensures Place(gap[..n], i) == Place(gap, i)
    decreases i
  {
    if i > 0 {
      PlaceFront(gap, n, i - 1);
    }
  }

  /** After a text that is not the last one comes a line break, whatever spells the gap. */
  lemma {:induction false} NextPlace(gap: seq<string>, i: nat)
    requires i < |gap| && gap[i] != ""
    ensures var end := Place(gap, i) + |gap[i]|;
            end + 1 == Place(gap, |gap|)
            || exists k :: i < k < |gap| && gap[k] != "" && Place(gap, k) == end + 1
    decreases |gap|
  {
    var n := |gap| - 1;
    if i < n {
      PlaceFront(gap, n, i);
      NextPlace(gap[..n], i);
      PlaceFront(gap, n, n);
      if k :| i < k < n && gap[..n][k] != "" && Place(gap[..n], k) == Place(gap, i) + |gap[i]| + 1 {
        PlaceFront(gap, n, k);
      }
    }
  }

  /**
   Parsing and then replaying any output list: the reasoning items and the well-formed calls
   in provider order, each once, and between two of them one message in which every text that
   stood there has its place, and nothing else.
   */
  lemma ReplayOfParse(raw: Raw)
    requires !raw.failed
    ensures var turn := Parse(raw).value;
            Woven(ReplayTurn(turn.content, turn.calls), Gaps(raw.output, Tail(raw)), AnchorList(raw.output))
  {
    ReplayIsWeave(raw);
    WeaveIsWoven(Gaps(raw.output, Tail(raw)), AnchorList(raw.output));
  }

  // ---- Calls ----

  /** `x` is the first of the candidates that is not empty. */
  predicate FirstOf(candidates: seq<string>, x: string) {
    exists i :: 0 <= i < |candidates| && candidates[i] == x && x != "" && forall j :: 0 <= j < i ==> candidates[j] == ""
  }

  function NestedName(src: CallSource): string { if src.fn.None? then "" else src.fn.value.name }

  /** A recorded call converts if and only if it has an id and a name; flat values come before nested
      ones, and arguments that are missing or empty become an empty object. */
  lemma CallConverts(src: CallSource)
    ensures ToFunctionCall(src).Some? <==> Speaks([src.callId, src.id]) && Speaks([src.name, NestedName(src)])
    ensures ToFunctionCall(src).Some? ==>
              var call := ToFunctionCall(src).value;
              && call.CallIn?
              && FirstOf([src.callId, src.id], call.callId) && FirstOf([src.name, NestedName(src)], call.name)
              && (src.args.Some? ==> FirstOf([src.args.value, "{}"], call.args))
              && (src.args.None? && src.fn.Some? && src.fn.value.args.Some? ==>
                    FirstOf([src.fn.value.args.value, "{}"], call.args))
              && (src.args.None? && (src.fn.None? || src.fn.value.args.None?) ==> call.args == "{}")
  {
    var ids, names := [src.callId, src.id], [src.name, NestedName(src)];
    assert ids[0] == src.callId && ids[1] == src.id && names[0] == src.name && names[1] == NestedName(src);
    if ToFunctionCall(src).Some? {
      ChosenIsFirst(src.callId, src.id);
      ChosenIsFirst(src.name, NestedName(src));
      if src.args.Some? {
        ChosenIsFirst(src.args.value, "{}");
      } else if src.fn.Some? && src.fn.value.args.Some? {
        ChosenIsFirst(src.fn.value.args.value, "{}");
      }
    }
  }

  lemma ChosenIsFirst(a: string, b: string)
    requires a != "" || b != ""
    ensures FirstOf([a, b], Or(a, b))
  {
    var candidates := [a, b];
    assert candidates[0] == a && candidates[1] == b;
  }

  function Converted(calls: seq<CallSource>): seq<InItem> {
    Flatten(seq(|calls|, i requires 0 <= i < |calls| =>
      if ToFunctionCall(calls[i]).Some? then [ToFunctionCall(calls[i]).value] else []))
  }

  lemma {:induction false} CallsAreConverted(calls: seq<CallSource>)
    ensures ReplayCalls(calls) == Converted(calls)
  {
    if calls != [] {
      var rest := calls[1..];
      CallsAreConverted(rest);
      var per := seq(|calls|, i requires 0 <= i < |calls| =>
        if ToFunctionCall(calls[i]).Some? then [ToFunctionCall(calls[i]).value] else []);
      assert per[1..] == seq(|rest|, i requires 0 <= i < |rest| =>
        if ToFunctionCall(rest[i]).Some? then [ToFunctionCall(rest[i]).value] else []);
    }
  }

  /** The calls among the anchors. */
  function CallAnchors(items: seq<OutItem>): seq<InItem> {
    if items == [] then []
    else (if items[0].FunctionCall? && Anchors(items[0]) then [Anchor(items[0])] else []) + CallAnchors(items[1..])
  }

  /** A turn whose blocks are gone sends the same calls from its tool-call entries. */
  lemma {:induction false} EntriesSendAnchors(items: seq<OutItem>)
    ensures Converted(ToolCalls(items)) == CallAnchors(items)
    decreases |items|
  {
    CallsAreConverted(ToolCalls(items));
    if items != [] {
      var rest := items[1..];
      EntriesSendAnchors(rest);
      CallsAreConverted(ToolCalls(rest));
      if items[0].FunctionCall? {
        assert ToolCalls(items)[1..] == ToolCalls(rest);
      } else {
        assert ToolCalls(items) == ToolCalls(rest);
      }
    }
  }

  /** The calls of a parsed turn are the provider's, whether or not its blocks are kept. */
  lemma ParsedCalls(raw: Raw)
    requires !raw.failed
    ensures Converted(Parse(raw).value.calls) == CallAnchors(raw.output)
  {
    EntriesSendAnchors(raw.output);
  }

  // ---- Whole histories ----

  /** What a block holds its place with. */
  function BlockAnchor(block: Block): Option<InItem> {
    match block
    case ReasoningBlock(id, summary, encrypted) => Some(ReasoningIn(id, summary, encrypted))
    case CallBlock(call) => ToFunctionCall(call)
    case _ => None
  }

  function BlockAnchors(blocks: seq<Block>): seq<InItem> {
    if blocks == [] then []
    else (if BlockAnchor(blocks[0]).Some? then [BlockAnchor(blocks[0]).value] else []) + BlockAnchors(blocks[1..])
  }

  /** The texts before, between and after them. */
  function BlockGaps(blocks: seq<Block>): (gaps: seq<seq<string>>)
    ensures |gaps| == |BlockAnchors(blocks)| + 1
  {
    if blocks == [] then [[]]
    else
      var rest := BlockGaps(blocks[1..]);
      if BlockAnchor(blocks[0]).Some? then [[]] + rest
      else if blocks[0].TextBlock? then [[blocks[0].text] + rest[0]] + rest[1..]
      else rest
  }

  lemma {:induction false} BlocksWeave(blocks: seq<Block>, pending: seq<string>)
    ensures ReplayBlocks(blocks, pending) == Weave(Opened(pending, BlockGaps(blocks)), BlockAnchors(blocks))
    decreases |blocks|
  {
    if blocks == [] {
      assert pending + [] == pending;
    } else {
      var rest, gaps := blocks[1..], BlockGaps(blocks[1..]);
      if BlockAnchor(blocks[0]).Some? {
        BlocksWeave(rest, []);
        OpenedEmpty(gaps);
        AnchoredFirst(pending, gaps, BlockAnchor(blocks[0]).value, BlockAnchors(rest));
      } else if blocks[0].TextBlock? {
        assert [] + BlockAnchors(rest) == BlockAnchors(rest);
        var text := blocks[0].text;
        BlocksWeave(rest, pending + [text]);
        Reassociate(pending, [text], gaps[0]);
        assert ([[text] + gaps[0]] + gaps[1..])[1..] == gaps[1..];
      } else {
        assert [] + BlockAnchors(rest) == BlockAnchors(rest);
        BlocksWeave(rest, pending);
      }
    }
  }

  lemma AnchoredFirst(pending: seq<string>, gaps: seq<seq<string>>, anchor: InItem, anchors: seq<InItem>)
    requires |gaps| == |anchors| + 1
    ensures Weave(Opened(pending, [[]] + gaps), [anchor] + anchors) == Flush(pending) + [anchor] + Weave(gaps, anchors)
  {
    var all := Opened(pending, [[]] + gaps);
    assert ([[]] + gaps)[1..] == gaps && pending + [] == pending;
    assert all[0] == pending && all[1..] == gaps && ([anchor] + anchors)[1..] == anchors;
  }

  /** Some block is a call that converts. */
  predicate SendsCall(blocks: seq<Block>) {
    exists i :: 0 <= i < |blocks| && blocks[i].CallBlock? && ToFunctionCall(blocks[i].call).Some?
  }

  /** The items stand for the message: a tool result with its call id and text, a message with its
      role, user if it has none, an assistant turn with its texts and anchors in their own order and,
      if no block sends a call, the calls of its entries after them. */
  ghost predicate StandsFor(items: seq<InItem>, m: HistoryMessage) {
    match m
    case ToolResult(callId, text) => items == [OutputIn(callId, text)]
    case Other(role, text) => items == [RoleIn(if role == "" then "user" else role, text)]
    case Assistant(Plain(text), calls) =>
      exists n :: 0 <= n <= |items| && Says(items[..n], [text]) && items[n..] == Converted(calls)
    case Assistant(Blocks(blocks), calls) =>
      exists n :: 0 <= n <= |items| && Woven(items[..n], BlockGaps(blocks), BlockAnchors(blocks))
                  && items[n..] == if SendsCall(blocks) then [] else Converted(calls)
  }

  lemma PlainStands(text: string, calls: seq<CallSource>)
    ensures StandsFor(ReplayTurn(Plain(text), calls), Assistant(Plain(text), calls))
  {
    var head, items := Flush([text]), ReplayTurn(Plain(text), calls);
    FlushSays([text]);
    CallsAreConverted(calls);
    assert items[..|head|] == head && items[|head|..] == Converted(calls);
  }

  lemma BlocksStand(blocks: seq<Block>, calls: seq<CallSource>)
    ensures StandsFor(ReplayTurn(Blocks(blocks), calls), Assistant(Blocks(blocks), calls))
  {
    var head, items := ReplayBlocks(blocks, []), ReplayTurn(Blocks(blocks), calls);
    BlocksWeave(blocks, []);
    OpenedEmpty(BlockGaps(blocks));
    WeaveIsWoven(BlockGaps(blocks), BlockAnchors(blocks));
    CallsAreConverted(calls);
    assert items[..|head|] == head;
    assert items[|head|..] == if SendsCall(blocks) then [] else Converted(calls);
  }

  lemma MessageStands(m: HistoryMessage)
    ensures StandsFor(ReplayMessage(m), m)
  {
    match m
    case ToolResult(_, _) =>
    case Other(_, _) =>
    case Assistant(Plain(text), calls) => PlainStands(text, calls);
    case Assistant(Blocks(blocks), calls) => BlocksStand(blocks, calls);
  }

  function Parts(messages: seq<HistoryMessage>): seq<seq<InItem>> {
    seq(|messages|, i requires 0 <= i < |messages| => ReplayMessage(messages[i]))
  }

  lemma PartsLast(front: seq<HistoryMessage>, last: HistoryMessage)
    ensures Parts(front + [last]) == Parts(front) + [ReplayMessage(last)]
  {}

  lemma {:induction false} PartsInOrder(messages: seq<HistoryMessage>)
    ensures ReplayAll(messages) == Flatten(Parts(messages))
    decreases |messages|
  {
    if messages != [] {
      var front, last := messages[..|messages| - 1], messages[|messages| - 1];
      PartsInOrder(front);
      PartsLast(front, last);
      FlattenAppend(Parts(front), ReplayMessage(last));
      assert messages == front + [last];
    }
  }

  /** Every history goes back message by message, in order, each standing for what it was. */
  lemma HistoryInOrder(messages: seq<HistoryMessage>)
    ensures ReplayAll(messages) == Flatten(Parts(messages)) && |Parts(messages)| == |messages|
    ensures forall i :: 0 <= i < |messages| ==> StandsFor(Parts(messages)[i], messages[i])
  {
    forall i | 0 <= i < |messages| ensures StandsFor(Parts(messages)[i], messages[i]) {
      MessageStands(messages[i]);
    }
    PartsInOrder(messages);
  }
}
