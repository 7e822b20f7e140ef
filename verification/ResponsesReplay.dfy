/**
 The Responses wire format: parsing an output list into a block list kept in history, and
 replaying that history as an input list. Absent and empty strings are not told apart,
 as in the source, except for `arguments` of a recorded call.
 */
module ResponsesReplay {
  import opened Common

  // ---- Provider output ----

  datatype SummaryPart = SummaryText(text: string) | NoText

  datatype MessagePart = OutputText(text: string) | Refusal(text: string) | OtherPart

  datatype OutItem =
    | Reasoning(id: string, summary: seq<SummaryPart>, encrypted: string)
    | Message(parts: seq<MessagePart>)
    | FunctionCall(callId: string, id: string, name: string, args: string)
    | OtherItem

  datatype Raw = Raw(failed: bool, output: seq<OutItem>, outputText: string)

  // ---- History ----

  datatype FnPart = FnPart(name: string, args: Option<string>)

  /** A recorded call: flat as in a block, or nested as in a tool-call entry. */
  datatype CallSource = CallSource(callId: string, id: string, name: string, args: Option<string>, fn: Option<FnPart>)

  datatype Block =
    | ReasoningBlock(id: string, summary: seq<string>, encrypted: string)
    | TextBlock(text: string)
    | CallBlock(call: CallSource)
    | OtherBlock

  datatype Content = Blocks(blocks: seq<Block>) | Plain(text: string)

  datatype HistoryMessage =
    | ToolResult(callId: string, text: string)
    | Assistant(content: Content, calls: seq<CallSource>)
    | Other(role: string, text: string)

  // ---- Replayed input ----

  datatype InItem =
    | ReasoningIn(id: string, summary: seq<string>, encrypted: string)
    | MessageIn(text: string)
    | CallIn(callId: string, name: string, args: string)
    | OutputIn(callId: string, output: string)
    | RoleIn(role: string, text: string)

  datatype Parsed = Parsed(content: Content, calls: seq<CallSource>)

  datatype ParseError = ResponseFailed

  function Or(a: string, b: string): string { if a != "" then a else b }

  // ---- Parsing, item by item ----

  function SummaryOf(parts: seq<SummaryPart>): seq<string> {
    if parts == [] then []
    else (if parts[0].NoText? then [] else [parts[0].text]) + SummaryOf(parts[1..])
  }

  function TextsOf(parts: seq<MessagePart>): seq<string> {
    if parts == [] then []
    else (if parts[0].OtherPart? then [] else [parts[0].text]) + TextsOf(parts[1..])
  }

  function TextBlocks(texts: seq<string>): seq<Block> {
    seq(|texts|, i requires 0 <= i < |texts| => TextBlock(texts[i]))
  }

  function BlocksOf(item: OutItem): seq<Block> {
    match item
    case Reasoning(id, summary, encrypted) => [ReasoningBlock(id, SummaryOf(summary), encrypted)]
    case Message(parts) => TextBlocks(TextsOf(parts))
    case FunctionCall(callId, id, name, args) =>
      [CallBlock(CallSource(Or(callId, id), "", name, Some(Or(args, "{}")), None))]
    case OtherItem => []
  }

  function ItemBlocks(items: seq<OutItem>): seq<Block> {
    if items == [] then [] else BlocksOf(items[0]) + ItemBlocks(items[1..])
  }

  function EntryOf(item: OutItem): seq<CallSource> {
    if item.FunctionCall? then
      [CallSource("", Or(item.callId, item.id), "", None, Some(FnPart(item.name, Some(Or(item.args, "{}")))))]
    else []
  }

  function ToolCalls(items: seq<OutItem>): seq<CallSource> {
    if items == [] then [] else EntryOf(items[0]) + ToolCalls(items[1..])
  }

  function AllTexts(items: seq<OutItem>): seq<string> {
    if items == [] then []
    else (if items[0].Message? then TextsOf(items[0].parts) else []) + AllTexts(items[1..])
  }

  /** The flat text stands in when no message part carried text. */
  function Stray(raw: Raw): seq<string> {
    if raw.outputText != "" && AllTexts(raw.output) == [] then [raw.outputText] else []
  }

  function Parse(raw: Raw): Result<Parsed, ParseError> {
    if raw.failed then Err(ResponseFailed)
    else
      var blocks := ItemBlocks(raw.output) + TextBlocks(Stray(raw));
      Ok(Parsed(if blocks == [] then Plain("") else Blocks(blocks), ToolCalls(raw.output)))
  }

  lemma {:induction false} ItemBlocksAppend(items: seq<OutItem>, item: OutItem)
    ensures ItemBlocks(items + [item]) == ItemBlocks(items) + BlocksOf(item)
    decreases |items|
  {
    if items == [] {
      assert items + [item] == [item] && [item][1..] == [];
    } else {
      assert (items + [item])[1..] == items[1..] + [item];
      ItemBlocksAppend(items[1..], item);
    }
  }

  lemma {:induction false} ToolCallsAppend(items: seq<OutItem>, item: OutItem)
    ensures ToolCalls(items + [item]) == ToolCalls(items) + EntryOf(item)
    decreases |items|
  {
    if items == [] {
      assert items + [item] == [item] && [item][1..] == [];
    } else {
      assert (items + [item])[1..] == items[1..] + [item];
      ToolCallsAppend(items[1..], item);
    }
  }

  lemma {:induction false} AllTextsAppend(items: seq<OutItem>, item: OutItem)
    ensures AllTexts(items + [item]) == AllTexts(items) + (if item.Message? then TextsOf(item.parts) else [])
    decreases |items|
  {
    if items == [] {
      assert items + [item] == [item] && [item][1..] == [];
    } else {
      assert (items + [item])[1..] == items[1..] + [item] && (items + [item])[0] == items[0];
      AllTextsAppend(items[1..], item);
      Reassociate(if items[0].Message? then TextsOf(items[0].parts) else [], AllTexts(items[1..]),
                  if item.Message? then TextsOf(item.parts) else []);
    }
  }

  lemma {:induction false} TextsAppend(parts: seq<MessagePart>, part: MessagePart)
    ensures TextsOf(parts + [part]) == TextsOf(parts) + (if part.OtherPart? then [] else [part.text])
  {
    if parts == [] {
      assert parts + [part] == [part] && [part][1..] == [];
    } else {
      assert (parts + [part])[1..] == parts[1..] + [part];
      TextsAppend(parts[1..], part);
    }
  }

  lemma {:induction false} SummaryAppend(parts: seq<SummaryPart>, part: SummaryPart)
    ensures SummaryOf(parts + [part]) == SummaryOf(parts) + (if part.NoText? then [] else [part.text])
  {
    if parts == [] {
      assert parts + [part] == [part] && [part][1..] == [];
    } else {
      assert (parts + [part])[1..] == parts[1..] + [part];
      SummaryAppend(parts[1..], part);
    }
  }

  method NormaliseSummary(summary: seq<SummaryPart>) returns (texts: seq<string>)
    ensures texts == SummaryOf(summary)
  {
    texts := [];
    for i := 0 to |summary|
      invariant texts == SummaryOf(summary[..i])
    {
      assert summary[..i + 1] == summary[..i] + [summary[i]];
      SummaryAppend(summary[..i], summary[i]);
      if summary[i].SummaryText? {
        texts := texts + [summary[i].text];
      }
    }
    assert summary[..|summary|] == summary;
  }

  method MessageTexts(parts: seq<MessagePart>) returns (texts: seq<string>, blocks: seq<Block>)
    ensures texts == TextsOf(parts) && blocks == TextBlocks(texts)
  {
    texts, blocks := [], [];
    for i := 0 to |parts|
      invariant texts == TextsOf(parts[..i]) && blocks == TextBlocks(texts)
    {
      assert parts[..i + 1] == parts[..i] + [parts[i]];
      TextsAppend(parts[..i], parts[i]);
      match parts[i]
      case OutputText(text) =>
        texts, blocks := texts + [text], blocks + [TextBlock(text)];
      case Refusal(text) =>
        texts, blocks := texts + [text], blocks + [TextBlock(text)];
      case OtherPart =>
    }
    assert parts[..|parts|] == parts;
  }

  method ParseResponsesOutput(raw: Raw) returns (r: Result<Parsed, ParseError>)
    ensures r == Parse(raw)
    ensures r.Err? <==> raw.failed
    ensures r.Ok? ==> r.value.content != Blocks([])
  {
    if raw.failed {
      return Err(ResponseFailed);
    }
    var blocks: seq<Block>, texts: seq<string>, calls: seq<CallSource> := [], [], [];
    for i := 0 to |raw.output|
      invariant blocks == ItemBlocks(raw.output[..i])
      invariant texts == AllTexts(raw.output[..i])
      invariant calls == ToolCalls(raw.output[..i])
    {
      assert raw.output[..i + 1] == raw.output[..i] + [raw.output[i]];
      ItemBlocksAppend(raw.output[..i], raw.output[i]);
      ToolCallsAppend(raw.output[..i], raw.output[i]);
      AllTextsAppend(raw.output[..i], raw.output[i]);
      match raw.output[i]
      case Reasoning(id, summary, encrypted) =>
        var normal := NormaliseSummary(summary);
        blocks := blocks + [ReasoningBlock(id, normal, encrypted)];
      case Message(parts) =>
        var more, moreBlocks := MessageTexts(parts);
        texts, blocks := texts + more, blocks + moreBlocks;
      case FunctionCall(callId, id, name, args) =>
        var key, arguments := Or(callId, id), Or(args, "{}");
        calls := calls + [CallSource("", key, "", None, Some(FnPart(name, Some(arguments))))];
        blocks := blocks + [CallBlock(CallSource(key, "", name, Some(arguments), None))];
      case OtherItem =>
    }
    assert raw.output[..|raw.output|] == raw.output;
    assert TextBlocks([raw.outputText]) == [TextBlock(raw.outputText)];
    assert blocks + TextBlocks([]) == blocks;
    if raw.outputText != "" && texts == [] {
      blocks := blocks + [TextBlock(raw.outputText)];
    }
    return Ok(Parsed(if blocks == [] then Plain("") else Blocks(blocks), calls));
  }

  // ---- Replay ----

  /** `_to_responses_function_call`: nothing when the id or the name is missing. */
  function ToFunctionCall(src: CallSource): Option<InItem> {
    var callId := Or(src.callId, src.id);
    var name := Or(src.name, if src.fn.Some? then src.fn.value.name else "");
    if callId == "" || name == "" then None
    else
      var args := if src.args.Some? then src.args else if src.fn.Some? then src.fn.value.args else None;
      Some(CallIn(callId, name, if args.Some? then Or(args.value, "{}") else "{}"))
  }

  function NonBlank(parts: seq<string>): seq<string> {
    if parts == [] then [] else (if parts[0] != "" then [parts[0]] else []) + NonBlank(parts[1..])
  }

  function JoinLines(parts: seq<string>): string {
    if parts == [] then "" else if |parts| == 1 then parts[0] else parts[0] + "\n" + JoinLines(parts[1..])
  }

  /** The one message that stands for the buffered text, if there is any. */
  function Flush(pending: seq<string>): seq<InItem> {
    var body := JoinLines(NonBlank(pending));
    if body == "" then [] else [MessageIn(body)]
  }

  function ReplayBlocks(blocks: seq<Block>, pending: seq<string>): seq<InItem>
    decreases |blocks|
  {
    if blocks == [] then Flush(pending)
    else
      match blocks[0]
      case ReasoningBlock(id, summary, encrypted) =>
        Flush(pending) + [ReasoningIn(id, summary, encrypted)] + ReplayBlocks(blocks[1..], [])
      case TextBlock(text) => ReplayBlocks(blocks[1..], pending + [text])
      case CallBlock(call) =>
        if ToFunctionCall(call).Some?
        then Flush(pending) + [ToFunctionCall(call).value] + ReplayBlocks(blocks[1..], [])
        else ReplayBlocks(blocks[1..], pending)
      case OtherBlock => ReplayBlocks(blocks[1..], pending)
  }

  predicate HasCall(blocks: seq<Block>) {
    exists i :: 0 <= i < |blocks| && blocks[i].CallBlock? && ToFunctionCall(blocks[i].call).Some?
  }

  function ReplayCalls(calls: seq<CallSource>): seq<InItem> {
    if calls == [] then []
    else (if ToFunctionCall(calls[0]).Some? then [ToFunctionCall(calls[0]).value] else []) + ReplayCalls(calls[1..])
  }

  function ReplayTurn(content: Content, calls: seq<CallSource>): seq<InItem> {
    match content
    case Blocks(blocks) => ReplayBlocks(blocks, []) + (if HasCall(blocks) then [] else ReplayCalls(calls))
    case Plain(text) => Flush([text]) + ReplayCalls(calls)
  }

  function ReplayMessage(m: HistoryMessage): seq<InItem> {
    match m
    case ToolResult(callId, text) => [OutputIn(callId, text)]
    case Assistant(content, calls) => ReplayTurn(content, calls)
    case Other(role, text) => [RoleIn(Or(role, "user"), text)]
  }

  function ReplayAll(messages: seq<HistoryMessage>): seq<InItem> {
    if messages == [] then [] else ReplayAll(messages[..|messages| - 1]) + ReplayMessage(messages[|messages| - 1])
  }

  method AppendCalls(items: seq<InItem>, calls: seq<CallSource>) returns (out: seq<InItem>)
    ensures out == items + ReplayCalls(calls)
  {
    out := items;
    for i := 0 to |calls|
      invariant out + ReplayCalls(calls[i..]) == items + ReplayCalls(calls)
    {
      assert calls[i..][0] == calls[i] && calls[i..][1..] == calls[i + 1..];
      var call := ToFunctionCall(calls[i]);
      if call.Some? {
        Reassociate(out, [call.value], ReplayCalls(calls[i + 1..]));
        out := out + [call.value];
      }
    }
  }

  method AppendBlocks(items: seq<InItem>, blocks: seq<Block>) returns (out: seq<InItem>, sawCall: bool)
    ensures out == items + ReplayBlocks(blocks, [])
    ensures sawCall <==> HasCall(blocks)
  {
    out, sawCall := items, false;
    var pending: seq<string> := [];
    for i := 0 to |blocks|
      invariant out + ReplayBlocks(blocks[i..], pending) == items + ReplayBlocks(blocks, [])
      invariant sawCall <==> HasCall(blocks[..i])
    {
      ghost var rest := blocks[i + 1..];
      assert blocks[i..][0] == blocks[i] && blocks[i..][1..] == rest;
      assert blocks[..i + 1] == blocks[..i] + [blocks[i]];
      HasCallAppend(blocks[..i], blocks[i]);
      match blocks[i]
      case ReasoningBlock(id, summary, encrypted) =>
        Reassociate(out, Flush(pending) + [ReasoningIn(id, summary, encrypted)], ReplayBlocks(rest, []));
        out := out + (Flush(pending) + [ReasoningIn(id, summary, encrypted)]);
        pending := [];
      case TextBlock(text) =>
        pending := pending + [text];
      case CallBlock(source) =>
        var call := ToFunctionCall(source);
        if call.Some? {
          Reassociate(out, Flush(pending) + [call.value], ReplayBlocks(rest, []));
          out := out + (Flush(pending) + [call.value]);
          pending := [];
          sawCall := true;
        }
      case OtherBlock =>
    }
    assert blocks[..|blocks|] == blocks && blocks[|blocks|..] == [];
    out := out + Flush(pending);
  }

  lemma HasCallAppend(blocks: seq<Block>, block: Block)
    ensures HasCall(blocks + [block]) <==> HasCall(blocks) || (block.CallBlock? && ToFunctionCall(block.call).Some?)
  {
    var all := blocks + [block];
    assert all[|blocks|] == block;
    assert forall i :: 0 <= i < |blocks| ==> all[i] == blocks[i];
  }

  method AppendTurn(items: seq<InItem>, content: Content, calls: seq<CallSource>) returns (out: seq<InItem>)
    ensures out == items + ReplayTurn(content, calls)
  {
    if content.Blocks? {
      var sawCall;
      out, sawCall := AppendBlocks(items, content.blocks);
      if !sawCall {
        Reassociate(items, ReplayBlocks(content.blocks, []), ReplayCalls(calls));
        out := AppendCalls(out, calls);
      }
    } else {
      Reassociate(items, Flush([content.text]), ReplayCalls(calls));
      out := AppendCalls(items + Flush([content.text]), calls);
    }
  }

  method ToResponsesInput(messages: seq<HistoryMessage>) returns (items: seq<InItem>)
    ensures items == ReplayAll(messages)
  {
    items := [];
    for i := 0 to |messages|
      invariant items == ReplayAll(messages[..i])
    {
      assert messages[..i + 1][..i] == messages[..i] && messages[..i + 1][i] == messages[i];
      match messages[i]
      case ToolResult(callId, text) =>
        items := items + [OutputIn(callId, text)];
      case Assistant(content, calls) =>
        items := AppendTurn(items, content, calls);
      case Other(role, text) =>
        items := items + [RoleIn(Or(role, "user"), text)];
    }
    assert messages[..|messages|] == messages;
  }

  // ---- What replay keeps, stated on the provider's own output ----

  /** The texts of a message, output and refusals alike. */
  function Spoken(parts: seq<MessagePart>): seq<string> {
    Flatten(seq(|parts|, i requires 0 <= i < |parts| => if parts[i].OtherPart? then [] else [parts[i].text]))
  }

  /** The texts of a summary. */
  function Outline(parts: seq<SummaryPart>): seq<string> {
    Flatten(seq(|parts|, i requires 0 <= i < |parts| => if parts[i].NoText? then [] else [parts[i].text]))
  }

  lemma {:induction false} SpokenIs(parts: seq<MessagePart>)
    ensures TextsOf(parts) == Spoken(parts)
  {
    var per := seq(|parts|, i requires 0 <= i < |parts| => if parts[i].OtherPart? then [] else [parts[i].text]);
    if parts != [] {
      SpokenIs(parts[1..]);
      var rest := parts[1..];
      assert per[1..] == seq(|rest|, i requires 0 <= i < |rest| => if rest[i].OtherPart? then [] else [rest[i].text]);
    }
  }

  lemma {:induction false} OutlineIs(parts: seq<SummaryPart>)
    ensures SummaryOf(parts) == Outline(parts)
  {
    var per := seq(|parts|, i requires 0 <= i < |parts| => if parts[i].NoText? then [] else [parts[i].text]);
    if parts != [] {
      OutlineIs(parts[1..]);
      var rest := parts[1..];
      assert per[1..] == seq(|rest|, i requires 0 <= i < |rest| => if rest[i].NoText? then [] else [rest[i].text]);
    }
  }

  /** Reasoning items and calls with an id and a name: what replay must not move. */
  predicate Anchors(item: OutItem) {
    item.Reasoning? || (item.FunctionCall? && (item.callId != "" || item.id != "") && item.name != "")
  }

  /** A call goes back with its call id, or else its id, and with its arguments, or else none. */
  function Anchor(item: OutItem): InItem
    requires Anchors(item)
  {
    if item.Reasoning? then ReasoningIn(item.id, Outline(item.summary), item.encrypted)
    else
      CallIn(if item.callId != "" then item.callId else item.id, item.name, if item.args != "" then item.args else "{}")
  }

  function AnchorList(items: seq<OutItem>): seq<InItem> {
    if items == [] then []
    else (if Anchors(items[0]) then [Anchor(items[0])] else []) + AnchorList(items[1..])
  }

  /** The text before, between and after the anchors; `tail` comes last. */
  function Gaps(items: seq<OutItem>, tail: seq<string>): (gaps: seq<seq<string>>)
    ensures |gaps| == |AnchorList(items)| + 1
  {
    if items == [] then [tail]
    else if Anchors(items[0]) then [[]] + Gaps(items[1..], tail)
    else if items[0].Message? then
      var rest := Gaps(items[1..], tail);
      [Spoken(items[0].parts) + rest[0]] + rest[1..]
    else Gaps(items[1..], tail)
  }

  function Weave(gaps: seq<seq<string>>, anchors: seq<InItem>): seq<InItem>
    requires |gaps| == |anchors| + 1
  {
    if anchors == [] then Flush(gaps[0])
    else Flush(gaps[0]) + [anchors[0]] + Weave(gaps[1..], anchors[1..])
  }

  lemma {:induction false} ReplayTexts(texts: seq<string>, rest: seq<Block>, pending: seq<string>)
    ensures ReplayBlocks(TextBlocks(texts) + rest, pending) == ReplayBlocks(rest, pending + texts)
    decreases |texts|
  {
    if texts == [] {
      assert TextBlocks(texts) + rest == rest && pending + texts == pending;
    } else {
      var blocks := TextBlocks(texts) + rest;
      assert blocks[0] == TextBlock(texts[0]) && blocks[1..] == TextBlocks(texts[1..]) + rest;
      ReplayTexts(texts[1..], rest, pending + [texts[0]]);
      assert pending + texts == pending + [texts[0]] + texts[1..];
    }
  }

  function Opened(pending: seq<string>, gaps: seq<seq<string>>): seq<seq<string>>
    requires gaps != []
  {
    [pending + gaps[0]] + gaps[1..]
  }

  lemma OpenedEmpty(gaps: seq<seq<string>>)
    requires gaps != []
    ensures Opened([], gaps) == gaps
  {
    assert [] + gaps[0] == gaps[0];
  }

  lemma {:induction false} ReplayWeaves(items: seq<OutItem>, tail: seq<string>, pending: seq<string>)
    ensures ReplayBlocks(ItemBlocks(items) + TextBlocks(tail), pending)
            == Weave(Opened(pending, Gaps(items, tail)), AnchorList(items))
    decreases |items|
  {
    if items == [] {
      assert ItemBlocks(items) + TextBlocks(tail) == TextBlocks(tail) + [];
      ReplayTexts(tail, [], pending);
    } else {
      var rest := ItemBlocks(items[1..]) + TextBlocks(tail);
      Reassociate(BlocksOf(items[0]), ItemBlocks(items[1..]), TextBlocks(tail));
      assert ItemBlocks(items) + TextBlocks(tail) == BlocksOf(items[0]) + rest;
      var gaps := Gaps(items[1..], tail);
      if Anchors(items[0]) {
        ReplayWeaves(items[1..], tail, []);
        OpenedEmpty(gaps);
        AnchorFirst(items[0], rest, pending);
        var all := Opened(pending, [[]] + gaps);
        assert ([[]] + gaps)[1..] == gaps;
        assert all[0] == pending && all[1..] == gaps;
        assert ([Anchor(items[0])] + AnchorList(items[1..]))[1..] == AnchorList(items[1..]);
        assert AnchorList(items) == [Anchor(items[0])] + AnchorList(items[1..]);
      } else {
        assert AnchorList(items) == AnchorList(items[1..]);
        NonAnchorFirst(items, tail, pending, rest);
      }
    }
  }

  lemma AnchorFirst(item: OutItem, rest: seq<Block>, pending: seq<string>)
    requires Anchors(item)
    ensures ReplayBlocks(BlocksOf(item) + rest, pending) == Flush(pending) + [Anchor(item)] + ReplayBlocks(rest, [])
  {
    var blocks := BlocksOf(item) + rest;
    assert blocks[0] == BlocksOf(item)[0] && blocks[1..] == rest;
    if item.Reasoning? {
      OutlineIs(item.summary);
    }
  }

  lemma {:induction false} NonAnchorFirst(items: seq<OutItem>, tail: seq<string>, pending: seq<string>,
      rest: seq<Block>)
    requires items != [] && !Anchors(items[0]) && rest == ItemBlocks(items[1..]) + TextBlocks(tail)
    ensures ReplayBlocks(BlocksOf(items[0]) + rest, pending)
            == Weave(Opened(pending, Gaps(items, tail)), AnchorList(items[1..]))
    decreases |items|, 0
  {
    var gaps := Gaps(items[1..], tail);
    match items[0]
    case Message(parts) =>
      var texts := Spoken(parts);
      SpokenIs(parts);
      ReplayTexts(texts, rest, pending);
      ReplayWeaves(items[1..], tail, pending + texts);
      Reassociate(pending, texts, gaps[0]);
      assert ([texts + gaps[0]] + gaps[1..])[1..] == gaps[1..];
      assert Opened(pending, [texts + gaps[0]] + gaps[1..]) == Opened(pending + texts, gaps);
    case FunctionCall(_, _, _, _) =>
      var blocks := BlocksOf(items[0]) + rest;
      assert blocks[0] == BlocksOf(items[0])[0] && blocks[1..] == rest;
      ReplayWeaves(items[1..], tail, pending);
    case OtherItem =>
      assert BlocksOf(items[0]) + rest == rest;
      ReplayWeaves(items[1..], tail, pending);
  }

  /** Calls parsed into the block list and into the tool-call list convert alike. */
  lemma {:induction false} NoAnchoredCallNoEntry(items: seq<OutItem>)
    ensures ReplayCalls(ToolCalls(items)) != [] ==> HasCall(ItemBlocks(items))
    decreases |items|
  {
    if items != [] {
      var first, rest := BlocksOf(items[0]), ItemBlocks(items[1..]);
      var blocks := first + rest;
      NoAnchoredCallNoEntry(items[1..]);
      if HasCall(rest) {
        var i :| 0 <= i < |rest| && rest[i].CallBlock? && ToFunctionCall(rest[i].call).Some?;
        assert blocks[|first| + i] == rest[i];
      }
      if items[0].FunctionCall? {
        assert blocks[0] == first[0];
        var entry := EntryOf(items[0])[0];
        assert ToFunctionCall(entry) == ToFunctionCall(first[0].call);
        assert ToolCalls(items) == [entry] + ToolCalls(items[1..]);
        assert ToolCalls(items)[1..] == ToolCalls(items[1..]);
      } else {
        assert EntryOf(items[0]) + ToolCalls(items[1..]) == ToolCalls(items[1..]);
      }
    }
  }

  lemma HasCallGrows(blocks: seq<Block>, more: seq<Block>)
    requires HasCall(blocks)
    ensures HasCall(blocks + more)
  {
    var i :| 0 <= i < |blocks| && blocks[i].CallBlock? && ToFunctionCall(blocks[i].call).Some?;
    assert (blocks + more)[i] == blocks[i];
  }

  /** Some message part has text. */
  predicate HasParts(items: seq<OutItem>) {
    exists i, k :: 0 <= i < |items| && items[i].Message? && 0 <= k < |items[i].parts| && !items[i].parts[k].OtherPart?
  }

  /** The flat text, where no message part has any. */
  function Tail(raw: Raw): seq<string> {
    if HasParts(raw.output) || raw.outputText == "" then [] else [raw.outputText]
  }

  lemma {:induction false} NoTextsIff(parts: seq<MessagePart>)
    ensures TextsOf(parts) == [] <==> forall k :: 0 <= k < |parts| ==> parts[k].OtherPart?
  {
    if parts != [] {
      NoTextsIff(parts[1..]);
      assert forall k :: 0 < k < |parts| ==> parts[k] == parts[1..][k - 1];
    }
  }

  lemma {:induction false} NoPartsIff(items: seq<OutItem>)
    ensures AllTexts(items) == [] <==> !HasParts(items)
  {
    if items != [] {
      var rest := items[1..];
      NoPartsIff(rest);
      if items[0].Message? {
        NoTextsIff(items[0].parts);
      }
      assert forall i :: 0 < i < |items| ==> items[i] == rest[i - 1];
    }
  }

  /** Parsing and then replaying any output list weaves its texts and its anchors. */
  lemma ReplayIsWeave(raw: Raw)
    requires !raw.failed
    ensures var turn := Parse(raw).value;
            ReplayTurn(turn.content, turn.calls) == Weave(Gaps(raw.output, Tail(raw)), AnchorList(raw.output))
  {
    var turn := Parse(raw).value;
    var blocks := ItemBlocks(raw.output) + TextBlocks(Stray(raw));
    var gaps := Gaps(raw.output, Stray(raw));
    NoPartsIff(raw.output);
    ReplayWeaves(raw.output, Stray(raw), []);
    OpenedEmpty(gaps);
    NoAnchoredCallNoEntry(raw.output);
    if HasCall(ItemBlocks(raw.output)) {
      HasCallGrows(ItemBlocks(raw.output), TextBlocks(Stray(raw)));
    }
    if blocks == [] {
      assert NonBlank([""]) == NonBlank([""][1..]);
      assert Flush([""]) == [] && Flush([]) == [];
    }
  }

  function Fixed(items: seq<InItem>): seq<InItem> {
    if items == [] then [] else (if items[0].MessageIn? then [] else [items[0]]) + Fixed(items[1..])
  }

  predicate NoTwoMessages(items: seq<InItem>) {
    forall i :: 0 <= i < |items| - 1 ==> !(items[i].MessageIn? && items[i + 1].MessageIn?)
  }

  lemma {:induction false} WeaveShape(gaps: seq<seq<string>>, anchors: seq<InItem>)
    requires |gaps| == |anchors| + 1 && forall a :: a in anchors ==> !a.MessageIn?
    ensures Fixed(Weave(gaps, anchors)) == anchors && NoTwoMessages(Weave(gaps, anchors))
    decreases |anchors|
  {
    var head := Flush(gaps[0]);
    if anchors == [] {
      assert head != [] ==> head[1..] == [];
    } else {
      var rest := Weave(gaps[1..], anchors[1..]);
      WeaveShape(gaps[1..], anchors[1..]);
      assert anchors[0] in anchors;
      var tail := [anchors[0]] + rest;
      assert tail[1..] == rest;
      assert Fixed(tail) == [anchors[0]] + Fixed(rest) == anchors;
      assert NoTwoMessages(tail);
      assert head + [anchors[0]] + rest == head + tail;
      if head != [] {
        assert (head + tail)[1..] == tail;
        assert Fixed(head + tail) == Fixed(tail);
      } else {
        assert head + tail == tail;
      }
    }
  }

  lemma {:induction false} AnchorsAreFixed(items: seq<OutItem>)
    ensures forall a :: a in AnchorList(items) ==> a.ReasoningIn? || a.CallIn?
    decreases |items|
  {
    if items != [] {
      AnchorsAreFixed(items[1..]);
    }
  }

  /** Nothing is lost, repeated or moved, and text never splits into two messages. */
  lemma ReplayKeepsProviderOrder(raw: Raw)
    requires !raw.failed
    ensures var turn := Parse(raw).value;
            var items := ReplayTurn(turn.content, turn.calls);
            Fixed(items) == AnchorList(raw.output) && NoTwoMessages(items)
  {
    ReplayIsWeave(raw);
    AnchorsAreFixed(raw.output);
    WeaveShape(Gaps(raw.output, Tail(raw)), AnchorList(raw.output));
  }

  // ---- Replay is stable: what was replayed parses back to the same turn ----

  function SummaryParts(texts: seq<string>): seq<SummaryPart> {
    seq(|texts|, i requires 0 <= i < |texts| => SummaryText(texts[i]))
  }

  /** The provider's output item that a replayed item stands for. */
  function AsOutput(item: InItem): OutItem {
    match item
    case ReasoningIn(id, summary, encrypted) => Reasoning(id, SummaryParts(summary), encrypted)
    case MessageIn(text) => Message([OutputText(text)])
    case CallIn(callId, name, args) => FunctionCall(callId, "", name, args)
    case _ => OtherItem
  }

  function AsOutputs(items: seq<InItem>): seq<OutItem> {
    seq(|items|, i requires 0 <= i < |items| => AsOutput(items[i]))
  }

  lemma {:induction false} SummaryRoundTrip(texts: seq<string>)
    ensures SummaryOf(SummaryParts(texts)) == texts
  {
    if texts != [] {
      assert SummaryParts(texts)[1..] == SummaryParts(texts[1..]);
      SummaryRoundTrip(texts[1..]);
    }
  }

  /** An anchor as replay produces it: a reasoning item, or a call with all its parts. */
  predicate Complete(a: InItem) {
    a.ReasoningIn? || (a.CallIn? && a.callId != "" && a.name != "" && a.args != "")
  }

  lemma AnchorRoundTrip(a: InItem)
    requires Complete(a)
    ensures Anchors(AsOutput(a)) && Anchor(AsOutput(a)) == a
  {
    if a.ReasoningIn? {
      SummaryRoundTrip(a.summary);
      OutlineIs(SummaryParts(a.summary));
    }
  }

  lemma FlushAgain(gap: seq<string>)
    ensures |Flush(gap)| <= 1
    ensures Flush(gap) != [] ==> Flush(gap)[0].MessageIn? && Flush([Flush(gap)[0].text]) == Flush(gap)
    ensures Flush([]) == []
  {
    if Flush(gap) != [] {
      var text := Flush(gap)[0].text;
      assert [text][1..] == [];
      assert NonBlank([text]) == [text];
    }
  }

  /** The gap that is read back from a flushed one. */
  function Settled(gap: seq<string>): seq<string> {
    if Flush(gap) == [] then [] else [Flush(gap)[0].text]
  }

  function SettledAll(gaps: seq<seq<string>>): seq<seq<string>> {
    seq(|gaps|, i requires 0 <= i < |gaps| => Settled(gaps[i]))
  }

  lemma {:induction false} ReadBack(gaps: seq<seq<string>>, anchors: seq<InItem>)
    requires |gaps| == |anchors| + 1 && forall a :: a in anchors ==> Complete(a)
    ensures var items := AsOutputs(Weave(gaps, anchors));
            && AnchorList(items) == anchors
            && Gaps(items, []) == SettledAll(gaps)
    decreases |anchors|
  {
    var head := Flush(gaps[0]);
    FlushAgain(gaps[0]);
    if anchors == [] {
      ReadBackMessage(head, []);
      assert AsOutputs(head) + [] == AsOutputs(head);
      assert Gaps([], []) == [[]] + SettledAll(gaps[1..]);
      OpenedSettled(gaps);
    } else {
      var rest := AsOutputs(Weave(gaps[1..], anchors[1..]));
      ReadBack(gaps[1..], anchors[1..]);
      assert anchors[0] in anchors;
      var tail := [AsOutput(anchors[0])] + rest;
      ReadBackAnchor(anchors[0], rest);
      AsOutputsWeave(gaps, anchors);
      ReadBackMessage(head, tail);
      OpenedSettled(gaps);
    }
  }

  lemma OpenedSettled(gaps: seq<seq<string>>)
    requires gaps != []
    ensures Opened(Settled(gaps[0]), [[]] + SettledAll(gaps[1..])) == SettledAll(gaps)
  {
    var rest: seq<seq<string>> := [[]] + SettledAll(gaps[1..]);
    assert rest[1..] == SettledAll(gaps[1..]);
    assert Settled(gaps[0]) + rest[0] == Settled(gaps[0]);
    assert SettledAll(gaps) == [Settled(gaps[0])] + SettledAll(gaps[1..]);
  }

  lemma AsOutputsWeave(gaps: seq<seq<string>>, anchors: seq<InItem>)
    requires |gaps| == |anchors| + 1 && anchors != []
    ensures AsOutputs(Weave(gaps, anchors))
         == AsOutputs(Flush(gaps[0])) + ([AsOutput(anchors[0])] + AsOutputs(Weave(gaps[1..], anchors[1..])))
  {}

  lemma ReadBackAnchor(anchor: InItem, rest: seq<OutItem>)
    requires Complete(anchor)
    ensures AnchorList([AsOutput(anchor)] + rest) == [anchor] + AnchorList(rest)
    ensures Gaps([AsOutput(anchor)] + rest, []) == [[]] + Gaps(rest, [])
  {
    AnchorRoundTrip(anchor);
    assert ([AsOutput(anchor)] + rest)[1..] == rest;
  }

  lemma ReadBackMessage(head: seq<InItem>, tail: seq<OutItem>)
    requires |head| <= 1 && (head != [] ==> head[0].MessageIn?)
    ensures AnchorList(AsOutputs(head) + tail) == AnchorList(tail)
    ensures Gaps(AsOutputs(head) + tail, []) == Opened(if head == [] then [] else [head[0].text], Gaps(tail, []))
  {
    var items := AsOutputs(head) + tail;
    if head == [] {
      assert items == tail;
      OpenedEmpty(Gaps(tail, []));
    } else {
      assert items[0] == Message([OutputText(head[0].text)]) && items[1..] == tail;
      assert [OutputText(head[0].text)][1..] == [];
      assert TextsOf([OutputText(head[0].text)]) == [head[0].text];
      SpokenIs([OutputText(head[0].text)]);
    }
  }

  lemma {:induction false} WeaveSettled(gaps: seq<seq<string>>, anchors: seq<InItem>)
    requires |gaps| == |anchors| + 1
    ensures Weave(SettledAll(gaps), anchors) == Weave(gaps, anchors)
    decreases |anchors|
  {
    var settled := SettledAll(gaps);
    FlushAgain(gaps[0]);
    assert Flush(settled[0]) == Flush(gaps[0]);
    if anchors != [] {
      var rest := gaps[1..];
      assert settled[1..] == SettledAll(rest);
      WeaveSettled(rest, anchors[1..]);
    }
  }

  lemma {:induction false} AnchorsAreComplete(items: seq<OutItem>)
    ensures forall a :: a in AnchorList(items) ==> Complete(a)
    decreases |items|
  {
    if items != [] {
      AnchorsAreComplete(items[1..]);
    }
  }

  /** A provider echoing a replayed turn gives a turn that replays the same way. */
  lemma ReplayIsStable(raw: Raw)
    requires !raw.failed
    ensures var turn := Parse(raw).value;
            var items := ReplayTurn(turn.content, turn.calls);
            var again := Parse(Raw(false, AsOutputs(items), "")).value;
            ReplayTurn(again.content, again.calls) == items
  {
    ReplayIsWeave(raw);
    var gaps, anchors := Gaps(raw.output, Tail(raw)), AnchorList(raw.output);
    AnchorsAreComplete(raw.output);
    ReadBack(gaps, anchors);
    var echo := Raw(false, AsOutputs(Weave(gaps, anchors)), "");
    ReplayIsWeave(echo);
    WeaveSettled(gaps, anchors);
  }
}
