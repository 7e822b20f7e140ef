/**
 Shaping a Messages request: tool results merged into one user message, the rolling cache
 marker, and the per-call tail folded into the message before it.
 */
module AnthropicCache {
  import opened Common

  datatype Role = User | AssistantRole

  /** `marked`: the block carries a cache breakpoint. */
  datatype Block =
    | ToolResult(id: string, body: string, marked: bool)
    | TextBlock(text: string, marked: bool)
    | OtherBlock(code: int, marked: bool)

  datatype Content = Text(text: string) | Blocks(blocks: seq<Block>)

  datatype Message = Message(role: Role, content: Content)

  /** A converted message, and whether it exists only in this request. */
  datatype Pair = Pair(message: Message, transient: bool)

  function BlocksOf(c: Content): seq<Block> {
    if c.Text? then [TextBlock(c.text, false)] else c.blocks
  }

  // ---- Merging tool results ----

  predicate OnlyResults(m: Message) {
    && m.role == User && m.content.Blocks? && m.content.blocks != []
    && forall i :: 0 <= i < |m.content.blocks| ==> m.content.blocks[i].ToolResult?
  }

  predicate Mergeable(a: Pair, b: Pair) {
    !a.transient && !b.transient && OnlyResults(a.message) && OnlyResults(b.message)
  }

  function Joined(a: Pair, b: Pair): Pair
    requires Mergeable(a, b)
  {
    Pair(a.message.(content := Blocks(a.message.content.blocks + b.message.content.blocks)), false)
  }

  function MergeInto(out: seq<Pair>, p: Pair): seq<Pair> {
    if out != [] && Mergeable(out[|out| - 1], p)
    then out[..|out| - 1] + [Joined(out[|out| - 1], p)]
    else out + [p]
  }

  function Merge(pairs: seq<Pair>): seq<Pair> {
    if pairs == [] then [] else MergeInto(Merge(pairs[..|pairs| - 1]), pairs[|pairs| - 1])
  }

  /** A message of this conversation that holds tool results, at least one, and nothing else. */
  predicate IsResultMessage(p: Pair) {
    && !p.transient && p.message.role == User && p.message.content.Blocks?
    && |p.message.content.blocks| > 0
    && forall b :: b in p.message.content.blocks ==> b.ToolResult?
  }

  /** A message joins the one before it if and only if both are such; then that one ends in its blocks. */
  lemma MergesIff(out: seq<Pair>, p: Pair)
    ensures if out != [] && IsResultMessage(out[|out| - 1]) && IsResultMessage(p) then
              var last := out[|out| - 1].message;
              var both := last.content.blocks + p.message.content.blocks;
              MergeInto(out, p) == out[..|out| - 1] + [Pair(Message(User, Blocks(both)), false)]
            else MergeInto(out, p) == out + [p]
  {
    ResultMessageIff(p);
    if out != [] {
      ResultMessageIff(out[|out| - 1]);
    }
  }

  lemma ResultMessageIff(p: Pair)
    ensures IsResultMessage(p) <==> !p.transient && OnlyResults(p.message)
  {
    if p.message.content.Blocks? {
      var blocks := p.message.content.blocks;
      if OnlyResults(p.message) {
        forall b | b in blocks ensures b.ToolResult? {
          var i :| 0 <= i < |blocks| && blocks[i] == b;
        }
      }
    }
  }

  method MergeToolResults(pairs: seq<Pair>) returns (out: seq<Pair>)
    ensures out == Merge(pairs)
  {
    out := [];
    for i := 0 to |pairs|
      invariant out == Merge(pairs[..i])
    {
      assert pairs[..i + 1][..i] == pairs[..i] && pairs[..i + 1][i] == pairs[i];
      var p := pairs[i];
      if out != [] && !p.transient && !out[|out| - 1].transient && OnlyResults(p.message)
          && OnlyResults(out[|out| - 1].message) {
        var prev := out[|out| - 1].message;
        var blocks := prev.content.blocks + p.message.content.blocks;
        out := out[..|out| - 1] + [Pair(prev.(content := Blocks(blocks)), false)];
      } else {
        out := out + [p];
      }
    }
    assert pairs[..|pairs|] == pairs;
  }

  /** A block with the role and lifetime of the message it is sent in. */
  datatype Placed = Placed(role: Role, transient: bool, block: Block)

  function Place(p: Pair): seq<Placed> {
    var blocks := BlocksOf(p.message.content);
    seq(|blocks|, i requires 0 <= i < |blocks| => Placed(p.message.role, p.transient, blocks[i]))
  }

  function PlacedBlocks(pairs: seq<Pair>): seq<Placed> {
    if pairs == [] then [] else PlacedBlocks(pairs[..|pairs| - 1]) + Place(pairs[|pairs| - 1])
  }

  predicate NoMergeablePair(pairs: seq<Pair>) {
    forall i :: 0 <= i < |pairs| - 1 ==> !Mergeable(pairs[i], pairs[i + 1])
  }

  lemma PlacedAppend(pairs: seq<Pair>, p: Pair)
    ensures PlacedBlocks(pairs + [p]) == PlacedBlocks(pairs) + Place(p)
  {
    assert (pairs + [p])[..|pairs|] == pairs;
  }

  lemma JoinedPlaces(a: Pair, b: Pair)
    requires Mergeable(a, b)
    ensures Place(Joined(a, b)) == Place(a) + Place(b)
    ensures OnlyResults(Joined(a, b).message)
  {}

  lemma MergeIntoPlaces(out: seq<Pair>, p: Pair)
    ensures PlacedBlocks(MergeInto(out, p)) == PlacedBlocks(out) + Place(p)
  {
    if out != [] && Mergeable(out[|out| - 1], p) {
      var init, last := out[..|out| - 1], out[|out| - 1];
      JoinedPlaces(last, p);
      PlacedAppend(init, Joined(last, p));
      Reassociate(PlacedBlocks(init), Place(last), Place(p));
    } else {
      PlacedAppend(out, p);
    }
  }

  lemma MergeIntoSeparates(out: seq<Pair>, p: Pair)
    requires NoMergeablePair(out)
    ensures NoMergeablePair(MergeInto(out, p))
  {
    var merged := MergeInto(out, p);
    if out != [] && Mergeable(out[|out| - 1], p) {
      JoinedPlaces(out[|out| - 1], p);
      assert |merged| == |out|;
      forall i | 0 <= i < |merged| - 1 ensures !Mergeable(merged[i], merged[i + 1]) {
        assert !Mergeable(out[i], out[i + 1]) && merged[i] == out[i];
      }
    } else {
      forall i | 0 <= i < |merged| - 1 ensures !Mergeable(merged[i], merged[i + 1]) {
        assert i < |out| - 1 ==> !Mergeable(out[i], out[i + 1]) && merged[i + 1] == out[i + 1];
      }
    }
  }

  /** Every block keeps its place, role and lifetime; nothing mergeable is left. */
  lemma {:induction false} MergeKeepsBlocks(pairs: seq<Pair>)
    ensures PlacedBlocks(Merge(pairs)) == PlacedBlocks(pairs)
    ensures NoMergeablePair(Merge(pairs))
  {
    if pairs != [] {
      MergeKeepsBlocks(pairs[..|pairs| - 1]);
      MergeIntoPlaces(Merge(pairs[..|pairs| - 1]), pairs[|pairs| - 1]);
      MergeIntoSeparates(Merge(pairs[..|pairs| - 1]), pairs[|pairs| - 1]);
    }
  }

  lemma {:induction false} MergeOfMerged(pairs: seq<Pair>)
    requires NoMergeablePair(pairs)
    ensures Merge(pairs) == pairs
  {
    if pairs != [] {
      var init := pairs[..|pairs| - 1];
      assert NoMergeablePair(init) by {
        forall i | 0 <= i < |init| - 1 ensures !Mergeable(init[i], init[i + 1]) {
          assert init[i] == pairs[i] && init[i + 1] == pairs[i + 1];
        }
      }
      MergeOfMerged(init);
      assert init != [] ==> !Mergeable(pairs[|pairs| - 2], pairs[|pairs| - 1]);
    }
  }

  lemma MergeIsIdempotent(pairs: seq<Pair>)
    ensures Merge(Merge(pairs)) == Merge(pairs)
  {
    MergeKeepsBlocks(pairs);
    MergeOfMerged(Merge(pairs));
  }

  predicate AllTransient(pairs: seq<Pair>) { forall i :: 0 <= i < |pairs| ==> pairs[i].transient }

  /** Per-call messages are never merged into the conversation. */
  lemma {:induction false} MergeStopsAtTail(pairs: seq<Pair>, tail: seq<Pair>)
    requires AllTransient(tail)
    ensures Merge(pairs + tail) == Merge(pairs) + tail
    decreases |tail|
  {
    if tail == [] {
      assert pairs + tail == pairs;
    } else {
      var init, last := tail[..|tail| - 1], tail[|tail| - 1];
      assert (pairs + tail)[..|pairs + tail| - 1] == pairs + init && (pairs + tail)[|pairs + tail| - 1] == last;
      MergeStopsAtTail(pairs, init);
      Reassociate(Merge(pairs), init, [last]);
      assert tail == init + [last];
    }
  }

  lemma MergeKeepsLifetime(pairs: seq<Pair>)
    requires pairs != [] && !pairs[|pairs| - 1].transient
    ensures Merge(pairs) != [] && !Merge(pairs)[|Merge(pairs)| - 1].transient
  {}

  // ---- The cache marker ----

  function WithMarker(c: Content): Content {
    match c
    case Text(text) => if text != "" then Blocks([TextBlock(text, true)]) else c
    case Blocks(blocks) =>
      if blocks != [] then Blocks(blocks[|blocks| - 1 := blocks[|blocks| - 1].(marked := true)]) else c
  }

  function Marked(messages: seq<Message>, tail: nat, enabled: bool): seq<Message> {
    if !enabled || tail >= |messages| then messages
    else
      var at := |messages| - 1 - tail;
      messages[at := messages[at].(content := WithMarker(messages[at].content))]
  }

  class Request {
    var system: Content
    var messages: seq<Message>

    constructor (system: string, messages: seq<Message>)
      ensures this.system == Text(system) && this.messages == messages
    {
      this.system, this.messages := Text(system), messages;
    }

    /** `_add_prompt_cache`: a marker on the system prompt and on the last persistent block. */
    method AddPromptCache(tail: nat, enabled: bool)
      modifies this
      ensures messages == Marked(old(messages), tail, enabled)
      ensures system == if enabled && old(system).Text? && old(system).text != ""
                        then Blocks([TextBlock(old(system).text, true)]) else old(system)
    {
      if !enabled {
        return;
      }
      if system.Text? && system.text != "" {
        system := Blocks([TextBlock(system.text, true)]);
      }
      if messages == [] || tail >= |messages| {
        return;
      }
      var at := |messages| - 1 - tail;
      var last := messages[at];
      if last.content.Text? {
        if last.content.text != "" {
          last := last.(content := Blocks([TextBlock(last.content.text, true)]));
        }
      } else if last.content.blocks != [] {
        var blocks := last.content.blocks;
        blocks := blocks[|blocks| - 1 := blocks[|blocks| - 1].(marked := true)];
        last := last.(content := Blocks(blocks));
      }
      messages := messages[at := last];
    }
  }

  // ---- Folding the tail ----

  function Extra(c: Content): seq<Block> {
    if c.Text? then (if c.text != "" then [TextBlock(c.text, false)] else []) else c.blocks
  }

  function Extras(messages: seq<Message>): seq<Block> {
    if messages == [] then [] else Extras(messages[..|messages| - 1]) + Extra(messages[|messages| - 1].content)
  }

  predicate Foldable(messages: seq<Message>, tail: nat)
    requires 0 < tail < |messages|
  {
    forall i :: |messages| - tail - 1 <= i < |messages| ==> messages[i].role == User
  }

  function Folded(messages: seq<Message>, tail: nat): seq<Message> {
    if tail == 0 || |messages| <= tail || !Foldable(messages, tail) then messages
    else
      var n := |messages| - tail;
      var target := messages[n - 1];
      messages[..n - 1] + [target.(content := Blocks(BlocksOf(target.content) + Extras(messages[n..])))]
  }

  method FoldTransientTail(messages: seq<Message>, tail: nat) returns (out: seq<Message>)
    ensures out == Folded(messages, tail)
  {
    if tail == 0 || |messages| <= tail {
      return messages;
    }
    var n := |messages| - tail;
    var target := messages[n - 1];
    if target.role != User || exists i :: n <= i < |messages| && messages[i].role != User {
      return messages;
    }
    var extras := CollectExtras(messages[n..]);
    return messages[..n - 1] + [target.(content := Blocks(BlocksOf(target.content) + extras))];
  }

  method CollectExtras(tail: seq<Message>) returns (blocks: seq<Block>)
    ensures blocks == Extras(tail)
  {
    blocks := [];
    for i := 0 to |tail|
      invariant blocks == Extras(tail[..i])
    {
      assert tail[..i + 1][..i] == tail[..i] && tail[..i + 1][i] == tail[i];
      var extra := tail[i].content;
      if extra.Text? {
        if extra.text != "" {
          blocks := blocks + [TextBlock(extra.text, false)];
        }
      } else {
        blocks := blocks + extra.blocks;
      }
    }
    assert tail[..|tail|] == tail;
  }

  // ---- The whole request ----

  function Messages(pairs: seq<Pair>): seq<Message> {
    seq(|pairs|, i requires 0 <= i < |pairs| => pairs[i].message)
  }

  function TailLength(pairs: seq<Pair>): (n: nat)
    ensures n <= |pairs|
  {
    if pairs == [] || !pairs[|pairs| - 1].transient then 0 else 1 + TailLength(pairs[..|pairs| - 1])
  }

  function Shaped(merged: seq<Pair>, enabled: bool): seq<Message> {
    var tail := TailLength(merged);
    Folded(Marked(Messages(merged), tail, enabled), tail)
  }

  function Built(pairs: seq<Pair>, enabled: bool): seq<Message> { Shaped(Merge(pairs), enabled) }

  method CountTail(merged: seq<Pair>) returns (tail: nat)
    ensures tail == TailLength(merged)
  {
    tail := 0;
    assert merged[..|merged|] == merged;
    while tail < |merged| && merged[|merged| - 1 - tail].transient
      invariant tail <= |merged|
      invariant TailLength(merged) == tail + TailLength(merged[..|merged| - tail])
      decreases |merged| - tail
    {
      ghost var seen := merged[..|merged| - tail];
      assert seen[..|seen| - 1] == merged[..|merged| - tail - 1];
      tail := tail + 1;
    }
    assert tail < |merged| ==> merged[..|merged| - tail][|merged| - tail - 1] == merged[|merged| - 1 - tail];
  }

  method BuildMessages(pairs: seq<Pair>, system: string, enabled: bool) returns (out: seq<Message>)
    ensures out == Built(pairs, enabled)
  {
    var merged := MergeToolResults(pairs);
    var tail := CountTail(merged);
    var request := new Request(system, Messages(merged));
    request.AddPromptCache(tail, enabled);
    out := FoldTransientTail(request.messages, tail);
  }

  lemma {:induction false} TailOf(pairs: seq<Pair>, tail: seq<Pair>)
    requires AllTransient(tail) && pairs != [] && !pairs[|pairs| - 1].transient
    ensures TailLength(pairs + tail) == |tail|
    decreases |tail|
  {
    if tail != [] {
      var all := pairs + tail;
      assert all[..|all| - 1] == pairs + tail[..|tail| - 1] && all[|all| - 1] == tail[|tail| - 1];
      TailOf(pairs, tail[..|tail| - 1]);
    } else {
      assert pairs + tail == pairs;
    }
  }

  /** `out` continues `base`: earlier messages equal, blocks of the last one a prefix. */
  predicate Extends(base: seq<Message>, out: seq<Message>) {
    && 0 < |base| <= |out|
    && out[..|base| - 1] == base[..|base| - 1]
    && out[|base| - 1].role == base[|base| - 1].role
    && BlocksOf(base[|base| - 1].content) <= BlocksOf(out[|base| - 1].content)
  }

  lemma MarkingIgnoresTail(messages: seq<Message>, tail: seq<Message>, enabled: bool)
    requires messages != []
    ensures Marked(messages + tail, |tail|, enabled) == Marked(messages, 0, enabled) + tail
  {}

  lemma FoldOnlyAppends(base: seq<Message>, tail: seq<Message>)
    requires base != []
    ensures Extends(base, Folded(base + tail, |tail|))
  {
    var all := base + tail;
    var n := |base|;
    assert all[..n - 1] == base[..n - 1] && all[n - 1] == base[n - 1];
    if tail != [] && Foldable(all, |tail|) {
      var out := Folded(all, |tail|);
      assert out[..n - 1] == base[..n - 1] && |out| == n;
      assert BlocksOf(out[n - 1].content) == BlocksOf(base[n - 1].content) + Extras(all[n..]);
    }
  }

  /** What folding takes over from a message: its blocks, or its text as one block unless it is empty. */
  function Taken(c: Content): seq<Block> {
    match c
    case Text(text) => if text == "" then [] else [TextBlock(text, false)]
    case Blocks(blocks) => blocks
  }

  function TakenAll(messages: seq<Message>): seq<Block> {
    Flatten(seq(|messages|, i requires 0 <= i < |messages| => Taken(messages[i].content)))
  }

  lemma {:induction false} ExtrasAreTaken(messages: seq<Message>)
    ensures Extras(messages) == TakenAll(messages)
    decreases |messages|
  {
    if messages != [] {
      var init, last := messages[..|messages| - 1], messages[|messages| - 1];
      var per := seq(|init|, i requires 0 <= i < |init| => Taken(init[i].content));
      ExtrasAreTaken(init);
      FlattenAppend(per, Taken(last.content));
      assert per + [Taken(last.content)]
          == seq(|messages|, i requires 0 <= i < |messages| => Taken(messages[i].content));
    }
  }

  /** A tail is folded if and only if it and the message before it are all the user's; then that message
      ends in everything the tail says, in order, and the tail is gone. Otherwise nothing changes. */
  lemma FoldExactly(base: seq<Message>, tail: seq<Message>)
    requires base != [] && tail != []
    ensures var out, last := Folded(base + tail, |tail|), base[|base| - 1];
            var own := match last.content case Text(text) => [TextBlock(text, false)] case Blocks(blocks) => blocks;
            if last.role == User && forall i :: 0 <= i < |tail| ==> tail[i].role == User
            then out == base[..|base| - 1] + [Message(User, Blocks(own + TakenAll(tail)))]
            else out == base + tail
  {
    var all, n := base + tail, |base|;
    ExtrasAreTaken(tail);
    assert all[n..] == tail && all[..n - 1] == base[..n - 1] && all[n - 1] == base[n - 1];
    FoldableIff(base, tail);
  }

  lemma FoldableIff(base: seq<Message>, tail: seq<Message>)
    requires base != [] && tail != []
    ensures Foldable(base + tail, |tail|) <==>
            base[|base| - 1].role == User && forall i :: 0 <= i < |tail| ==> tail[i].role == User
  {
    var all, n := base + tail, |base|;
    assert all[n - 1] == base[n - 1] && forall i :: 0 <= i < |tail| ==> all[n + i] == tail[i];
    if base[n - 1].role == User && forall i :: 0 <= i < |tail| ==> tail[i].role == User {
      forall i | n - 1 <= i < |all| ensures all[i].role == User {
        assert i >= n ==> all[i] == tail[i - n];
      }
    }
  }

  function SetMarker(b: Block): Block {
    match b
    case ToolResult(id, body, _) => ToolResult(id, body, true)
    case TextBlock(text, _) => TextBlock(text, true)
    case OtherBlock(code, _) => OtherBlock(code, true)
  }

  lemma MarkerGoesLast(c: Content)
    ensures var blocks := Taken(c);
            WithMarker(c) == if blocks == [] then c
                             else Blocks(blocks[..|blocks| - 1] + [SetMarker(blocks[|blocks| - 1])])
  {
    var blocks := Taken(c);
    if blocks != [] {
      var last := SetMarker(blocks[|blocks| - 1]);
      assert blocks[|blocks| - 1 := last] == blocks[..|blocks| - 1] + [last];
      assert c.Text? ==> blocks[..0] + [last] == [last];
    }
  }

  /** Marking sets one marker and changes nothing else: on the final block of the last message before
      the tail, whose text counts as a block, if caching is on and there is something to mark. */
  lemma MarkExactly(messages: seq<Message>, tail: nat, enabled: bool)
    ensures var out, at := Marked(messages, tail, enabled), |messages| - 1 - tail;
            && |out| == |messages|
            && (forall i :: 0 <= i < |messages| && i != at ==> out[i] == messages[i])
            && (!enabled || at < 0 || Taken(messages[at].content) == [] ==> out == messages)
            && (enabled && at >= 0 && Taken(messages[at].content) != [] ==>
                  var blocks := Taken(messages[at].content);
                  out[at] == Message(messages[at].role,
                                     Blocks(blocks[..|blocks| - 1] + [SetMarker(blocks[|blocks| - 1])])))
  {
    var at := |messages| - 1 - tail;
    if enabled && at >= 0 {
      MarkerGoesLast(messages[at].content);
      assert messages[at := messages[at]] == messages;
    }
  }

  lemma MessagesConcat(a: seq<Pair>, b: seq<Pair>)
    ensures Messages(a + b) == Messages(a) + Messages(b)
  {}

  lemma ShapedWithTail(merged: seq<Pair>, tail: seq<Pair>, enabled: bool)
    requires merged != [] && !merged[|merged| - 1].transient && AllTransient(tail)
    ensures Shaped(merged + tail, enabled)
         == Folded(Marked(Messages(merged), 0, enabled) + Messages(tail), |Messages(tail)|)
  {
    TailOf(merged, tail);
    MessagesConcat(merged, tail);
    MarkingIgnoresTail(Messages(merged), Messages(tail), enabled);
  }

  lemma BuiltWithTail(pairs: seq<Pair>, tail: seq<Pair>, enabled: bool)
    requires pairs != [] && !pairs[|pairs| - 1].transient && AllTransient(tail)
    ensures Merge(pairs) != []
    ensures Built(pairs + tail, enabled)
         == Folded(Marked(Messages(Merge(pairs)), 0, enabled) + Messages(tail), |Messages(tail)|)
  {
    MergeKeepsLifetime(pairs);
    MergeStopsAtTail(pairs, tail);
    ShapedLike(Merge(pairs + tail), Merge(pairs), tail, enabled);
  }

  lemma ShapedLike(whole: seq<Pair>, merged: seq<Pair>, tail: seq<Pair>, enabled: bool)
    requires whole == merged + tail && merged != [] && !merged[|merged| - 1].transient && AllTransient(tail)
    ensures Shaped(whole, enabled) == Folded(Marked(Messages(merged), 0, enabled) + Messages(tail), |Messages(tail)|)
  {
    ShapedWithTail(merged, tail, enabled);
  }

  /**
   For every conversation that ends in a persistent message and every per-call tail: the
   request begins with the same messages and blocks, up to the marker, as without a tail.
   */
  lemma CachedPrefixIsStable(pairs: seq<Pair>, tail: seq<Pair>, enabled: bool)
    requires pairs != [] && !pairs[|pairs| - 1].transient && AllTransient(tail)
    ensures Built(pairs, enabled) == Marked(Messages(Merge(pairs)), 0, enabled)
    ensures Extends(Built(pairs, enabled), Built(pairs + tail, enabled))
  {
    var base := Marked(Messages(Merge(pairs)), 0, enabled);
    BuiltWithTail(pairs, [], enabled);
    assert pairs + [] == pairs && Messages([]) == [] && base + [] == base;
    BuiltWithTail(pairs, tail, enabled);
    FoldOnlyAppends(base, Messages(tail));
  }

  predicate EndsMarked(messages: seq<Message>) {
    && messages != []
    && var blocks := BlocksOf(messages[|messages| - 1].content);
       blocks != [] && blocks[|blocks| - 1].marked
  }

  /** With caching on, the stable prefix ends in the marker exactly when the last persistent
      message has something to mark. */
  lemma StablePrefixEndsInMarker(pairs: seq<Pair>)
    requires pairs != [] && !pairs[|pairs| - 1].transient
    ensures var last := Merge(pairs)[|Merge(pairs)| - 1].message.content;
            Merge(pairs) != [] && (EndsMarked(Built(pairs, true)) <==> last != Text("") && last != Blocks([]))
  {
    CachedPrefixIsStable(pairs, [], true);
    MergeKeepsLifetime(pairs);
    MarkerAtEnd(Messages(Merge(pairs)));
  }

  lemma MarkerAtEnd(messages: seq<Message>)
    requires messages != []
    ensures var last := messages[|messages| - 1].content;
            EndsMarked(Marked(messages, 0, true)) <==> last != Text("") && last != Blocks([])
  {}

  // ---- Nothing is lost on the way ----

  /** What the model reads of a message: its blocks without markers and without empty text. */
  function Read(role: Role, blocks: seq<Block>): seq<(Role, Block)> {
    if blocks == [] then []
    else
      (if blocks[0].TextBlock? && blocks[0].text == "" then [] else [(role, blocks[0].(marked := false))])
      + Read(role, blocks[1..])
  }

  function ReadAll(messages: seq<Message>): seq<(Role, Block)> {
    if messages == [] then []
    else Read(messages[0].role, BlocksOf(messages[0].content)) + ReadAll(messages[1..])
  }

  lemma {:induction false} ReadConcat(role: Role, a: seq<Block>, b: seq<Block>)
    ensures Read(role, a + b) == Read(role, a) + Read(role, b)
    decreases |a|
  {
    if a == [] {
      assert a + b == b;
    } else {
      assert (a + b)[1..] == a[1..] + b && (a + b)[0] == a[0];
      ReadConcat(role, a[1..], b);
      Reassociate(if a[0].TextBlock? && a[0].text == "" then [] else [(role, a[0].(marked := false))],
                  Read(role, a[1..]), Read(role, b));
    }
  }

  lemma {:induction false} ReadAllConcat(a: seq<Message>, b: seq<Message>)
    ensures ReadAll(a + b) == ReadAll(a) + ReadAll(b)
    decreases |a|
  {
    if a == [] {
      assert a + b == b;
    } else {
      assert (a + b)[1..] == a[1..] + b && (a + b)[0] == a[0];
      ReadAllConcat(a[1..], b);
      Reassociate(Read(a[0].role, BlocksOf(a[0].content)), ReadAll(a[1..]), ReadAll(b));
    }
  }

  lemma ReadOne(m: Message)
    ensures ReadAll([m]) == Read(m.role, BlocksOf(m.content))
  {
    assert [m][1..] == [];
  }

  lemma MarkerIsInvisible(role: Role, c: Content)
    ensures Read(role, BlocksOf(WithMarker(c))) == Read(role, BlocksOf(c))
  {
    match c
    case Text(text) =>
      assert [TextBlock(text, true)][1..] == [] && [TextBlock(text, false)][1..] == [];
    case Blocks(blocks) =>
      if blocks != [] {
        var init, last := blocks[..|blocks| - 1], blocks[|blocks| - 1];
        assert blocks == init + [last] && blocks[|blocks| - 1 := last.(marked := true)]
            == init + [last.(marked := true)];
        ReadConcat(role, init, [last]);
        ReadConcat(role, init, [last.(marked := true)]);
        assert [last][1..] == [] && [last.(marked := true)][1..] == [];
      }
  }

  lemma MarkingConserves(messages: seq<Message>, tail: nat, enabled: bool)
    ensures ReadAll(Marked(messages, tail, enabled)) == ReadAll(messages)
  {
    if enabled && tail < |messages| {
      var at := |messages| - 1 - tail;
      var m := messages[at];
      var marked := m.(content := WithMarker(m.content));
      assert messages == messages[..at] + [m] + messages[at + 1..];
      assert Marked(messages, tail, enabled) == messages[..at] + [marked] + messages[at + 1..];
      ReadAllConcat(messages[..at] + [m], messages[at + 1..]);
      ReadAllConcat(messages[..at], [m]);
      ReadAllConcat(messages[..at] + [marked], messages[at + 1..]);
      ReadAllConcat(messages[..at], [marked]);
      ReadOne(m);
      ReadOne(marked);
      MarkerIsInvisible(m.role, m.content);
    }
  }

  lemma ExtraIsRead(role: Role, c: Content)
    ensures Read(role, Extra(c)) == Read(role, BlocksOf(c))
  {
    if c.Text? {
      assert [TextBlock(c.text, false)][1..] == [];
    }
  }

  lemma {:induction false} ExtrasAreRead(messages: seq<Message>)
    requires forall i :: 0 <= i < |messages| ==> messages[i].role == User
    ensures Read(User, Extras(messages)) == ReadAll(messages)
    decreases |messages|
  {
    if messages != [] {
      var init, last := messages[..|messages| - 1], messages[|messages| - 1];
      ExtrasAreRead(init);
      ReadConcat(User, Extras(init), Extra(last.content));
      ExtraIsRead(User, last.content);
      assert messages == init + [last];
      ReadAllConcat(init, [last]);
      ReadOne(last);
    }
  }

  lemma FoldingConserves(messages: seq<Message>, tail: nat)
    ensures ReadAll(Folded(messages, tail)) == ReadAll(messages)
  {
    if 0 < tail < |messages| && Foldable(messages, tail) {
      var n := |messages| - tail;
      var head, target, rest := messages[..n - 1], messages[n - 1], messages[n..];
      var folded := target.(content := Blocks(BlocksOf(target.content) + Extras(rest)));
      assert messages == head + [target] + rest;
      ReadAllConcat(head + [target], rest);
      ReadAllConcat(head, [target]);
      ReadAllConcat(head, [folded]);
      ReadOne(target);
      ReadOne(folded);
      ReadConcat(User, BlocksOf(target.content), Extras(rest));
      ExtrasAreRead(rest);
      Reassociate(ReadAll(head), ReadAll([target]), ReadAll(rest));
    }
  }

  lemma JoiningConserves(a: Pair, b: Pair)
    requires Mergeable(a, b)
    ensures ReadAll([Joined(a, b).message]) == ReadAll([a.message]) + ReadAll([b.message])
  {
    ReadOne(Joined(a, b).message);
    ReadOne(a.message);
    ReadOne(b.message);
    ReadConcat(User, a.message.content.blocks, b.message.content.blocks);
  }

  lemma {:induction false} MergingConserves(pairs: seq<Pair>)
    ensures ReadAll(Messages(Merge(pairs))) == ReadAll(Messages(pairs))
  {
    if pairs != [] {
      var init, last := pairs[..|pairs| - 1], pairs[|pairs| - 1];
      MergingConserves(init);
      ReadAppended(pairs, init, last);
      MergeIntoConserves(Merge(init), last);
    }
  }

  lemma ReadAppended(pairs: seq<Pair>, init: seq<Pair>, last: Pair)
    requires pairs == init + [last]
    ensures ReadAll(Messages(pairs)) == ReadAll(Messages(init)) + ReadAll([last.message])
  {
    assert Messages(pairs) == Messages(init) + [last.message];
    ReadAllConcat(Messages(init), [last.message]);
  }

  lemma MergeIntoConserves(out: seq<Pair>, p: Pair)
    ensures ReadAll(Messages(MergeInto(out, p))) == ReadAll(Messages(out)) + ReadAll([p.message])
  {
    if out != [] && Mergeable(out[|out| - 1], p) {
      var init, last := out[..|out| - 1], out[|out| - 1];
      assert Messages(out) == Messages(init) + [last.message];
      assert Messages(MergeInto(out, p)) == Messages(init) + [Joined(last, p).message];
      ReadAllConcat(Messages(init), [last.message]);
      ReadAllConcat(Messages(init), [Joined(last, p).message]);
      JoiningConserves(last, p);
      Reassociate(ReadAll(Messages(init)), ReadAll([last.message]), ReadAll([p.message]));
    } else {
      assert Messages(MergeInto(out, p)) == Messages(out) + [p.message];
      ReadAllConcat(Messages(out), [p.message]);
    }
  }

  /** Merging, marking and folding together neither lose, repeat nor reorder anything the model reads. */
  lemma RequestConserves(pairs: seq<Pair>, enabled: bool)
    ensures ReadAll(Built(pairs, enabled)) == ReadAll(Messages(pairs))
  {
    var merged := Merge(pairs);
    var tail := TailLength(merged);
    MergingConserves(pairs);
    MarkingConserves(Messages(merged), tail, enabled);
    FoldingConserves(Marked(Messages(merged), tail, enabled), tail);
  }
}
