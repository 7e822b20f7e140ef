/**
 Recovery cursors of nested fallback chains. A client is a leaf or a chain of clients; a
 logical call works on its own copy, whose cursors move forward as legs fail or are given up.
 */
module FallbackCursor {
  import opened Common
  import opened FallbackStream

  datatype Client = Leaf(id: int) | Chain(entries: seq<Leg>, managed: bool, start: nat, serving: nat)

  datatype Leg = Leg(client: Client, triggers: Option<seq<Trigger>>)

  /** How one call of a client ends. `emitted`: model output had already reached the caller. */
  datatype Reply = Answer | Empty | Fails(error: Error, emitted: bool)

  /** The replies of the leaves, by order of attempt: every failure pattern is one of these. */
  type Oracle = nat -> Reply

  /** A call's effect: the client afterwards, the reply and the leaves attempted, in order. */
  datatype Called = Called(client: Client, reply: Reply, tried: seq<int>)

  /** The same for the part of a chain that is still eligible; `at` is the leg that served. */
  datatype Walk = Walk(legs: seq<Leg>, at: nat, reply: Reply, tried: seq<int>)

  /** Chains are built with at least one entry. */
  predicate Valid(c: Client) {
    match c
    case Leaf(_) => true
    case Chain(legs, _, _, _) => legs != [] && forall l :: l in legs ==> Valid(l.client)
  }

  /** A client prepared for a logical call: managed at every depth, cursors inside the lists. */
  predicate Prepared(c: Client) {
    match c
    case Leaf(_) => true
    case Chain(legs, managed, start, serving) =>
      managed && start < |legs| && serving < |legs| && forall l :: l in legs ==> Prepared(l.client)
  }

  /** A cached chain nobody has prepared for a logical call. */
  predicate Shared(c: Client) {
    match c
    case Leaf(_) => true
    case Chain(legs, managed, start, serving) =>
      !managed && start == 0 && serving < |legs| && forall l :: l in legs ==> Shared(l.client)
  }

  // ---- Operations ----

  function After(managed: bool, reply: Reply): Reply {
    if !managed && reply.Empty? then Fails(EMPTY_COMPLETION, false) else reply
  }

  predicate FallsThrough(leg: Leg, reply: Reply) {
    reply.Fails? && !reply.emitted && Falls(leg.triggers, reply.error)
  }

  function Shift(oracle: Oracle, n: nat): Oracle { (k: nat) => oracle(n + k) }

  function CallLegs(legs: seq<Leg>, managed: bool, oracle: Oracle): Walk
    requires legs != []
    decreases legs
  {
    assert legs decreases to legs[0];
    var first := Call(legs[0].client, oracle);
    var reply := After(managed, first.reply);
    var leg := legs[0].(client := first.client);
    if |legs| > 1 && FallsThrough(legs[0], reply) then
      var rest := CallLegs(legs[1..], managed, Shift(oracle, |first.tried|));
      Walk([leg] + rest.legs, rest.at + 1, rest.reply, first.tried + rest.tried)
    else Walk([leg] + legs[1..], 0, reply, first.tried)
  }

  /** `chat` and `stream`, seen by the cursors. A chain without an eligible leg never calls. */
  function Call(c: Client, oracle: Oracle): Called
    decreases c
  {
    match c
    case Leaf(id) => Called(c, oracle(0), [id])
    case Chain(legs, managed, start, serving) =>
      if start >= |legs| then Called(c, Fails(EXHAUSTED, false), [])
      else
        var walk := CallLegs(legs[start..], managed, oracle);
        var at := start + walk.at;
        Called(Chain(legs[..start] + walk.legs, managed, if managed then at else start, at), walk.reply, walk.tried)
  }

  /** `advance_empty_completion`: the innermost serving chain moves first. */
  function Advance(c: Client, error: Error): (Client, bool)
    decreases c
  {
    match c
    case Leaf(_) => (c, false)
    case Chain(legs, managed, start, serving) =>
      if serving >= |legs| then (c, false) else
      var inner := Advance(legs[serving].client, error);
      if managed && inner.1 then (c.(entries := legs[serving := legs[serving].(client := inner.0)]), true)
      else if !managed || serving + 1 >= |legs| || !Falls(legs[serving].triggers, error) then (c, false)
      else (c.(start := serving + 1), true)
  }

  /** `for_logical_call`: a managed copy, cursors at the beginning, at every depth. */
  function ForLogicalCall(c: Client): Client
    decreases c
  {
    match c
    case Leaf(_) => c
    case Chain(legs, _, _, _) =>
      Chain(seq(|legs|, i requires 0 <= i < |legs| => legs[i].(client := ForLogicalCall(legs[i].client))), true, 0, 0)
  }

  // ---- What is left to try ----

  function LegsOf(legs: seq<Leg>): seq<int>
    decreases legs
  {
    if legs == [] then [] else assert legs decreases to legs[0]; Legs(legs[0].client) + LegsOf(legs[1..])
  }

  /** The leaves a client can still reach, in order. */
  function Legs(c: Client): seq<int>
    decreases c
  {
    match c
    case Leaf(id) => [id]
    case Chain(legs, _, start, _) => if start < |legs| then LegsOf(legs[start..]) else []
  }

  predicate Suffix(a: seq<int>, b: seq<int>)
    ensures Suffix(a, b) ==> |a| <= |b|
    decreases |b|
  {
    a == b || (b != [] && Suffix(a, b[1..]))
  }

  lemma {:induction false} SuffixTrans(a: seq<int>, b: seq<int>, c: seq<int>)
    requires Suffix(a, b) && Suffix(b, c)
    ensures Suffix(a, c)
    decreases |c|
  {
    if b != c {
      SuffixTrans(a, b, c[1..]);
    }
  }

  lemma {:induction false} SuffixAppend(a: seq<int>, b: seq<int>, tail: seq<int>)
    requires Suffix(a, b)
    ensures Suffix(a + tail, b + tail)
    decreases |b|
  {
    if a != b {
      SuffixAppend(a, b[1..], tail);
      assert (b + tail)[1..] == b[1..] + tail;
    }
  }

  lemma {:induction false} SuffixPrepend(head: seq<int>, b: seq<int>)
    ensures Suffix(b, head + b)
    decreases |head|
  {
    if head == [] {
      assert head + b == b;
    } else {
      SuffixPrepend(head[1..], b);
      assert (head + b)[1..] == head[1..] + b;
    }
  }

  /** The chain last served from its cursor, at every depth along the serving path. */
  predicate Synced(c: Client) {
    match c
    case Leaf(_) => true
    case Chain(legs, _, start, serving) => serving == start < |legs| && Synced(legs[serving].client)
  }

  predicate GoodLegs(legs: seq<Leg>) {
    forall l :: l in legs ==> Prepared(l.client)
  }

  lemma GoodConcat(a: seq<Leg>, b: seq<Leg>)
    ensures GoodLegs(a + b) <==> GoodLegs(a) && GoodLegs(b)
  {
    if GoodLegs(a + b) {
      forall l | l in a || l in b ensures l in a + b {}
    }
  }

  lemma LegsOfCons(leg: Leg, rest: seq<Leg>)
    ensures LegsOf([leg] + rest) == Legs(leg.client) + LegsOf(rest)
  {
    assert ([leg] + rest)[1..] == rest;
  }

  lemma {:induction false} LegsNonEmpty(c: Client)
    requires Prepared(c)
    ensures Legs(c) != []
    decreases c
  {
    match c
    case Leaf(_) =>
    case Chain(legs, _, start, _) =>
      assert legs[start..][0] == legs[start];
      LegsNonEmpty(legs[start].client);
  }

  /** What attempting `tried` leaves of `before`: a suffix that begins with the last attempt,
      and no leg attempted twice. */
  predicate Spent(tried: seq<int>, left: seq<int>, before: seq<int>) {
    && Suffix(left, before)
    && tried != [] && left != [] && tried[|tried| - 1] == left[0]
    && |tried| + |left| <= |before| + 1
  }

  lemma SpentBeforeTail(tried: seq<int>, left: seq<int>, before: seq<int>, tail: seq<int>)
    requires Spent(tried, left, before)
    ensures Spent(tried, left + tail, before + tail)
  {
    SuffixAppend(left, before, tail);
  }

  lemma SpentInTurn(tried: seq<int>, left: seq<int>, before: seq<int>, tried': seq<int>, left': seq<int>,
      before': seq<int>)
    requires Spent(tried, left, before) && Spent(tried', left', before')
    ensures Spent(tried + tried', left', before + before')
  {
    SuffixPrepend(before, before');
    SuffixTrans(left', before', before + before');
  }

  predicate CallKeeps(c: Client, r: Called) {
    && Prepared(r.client) && Synced(r.client)
    && Spent(r.tried, Legs(r.client), Legs(c))
  }

  predicate WalkKeeps(legs: seq<Leg>, w: Walk) {
    && |w.legs| == |legs| && w.at < |legs| && GoodLegs(w.legs)
    && Synced(w.legs[w.at].client)
    && Spent(w.tried, LegsOf(w.legs[w.at..]), LegsOf(legs))
  }

  /** The first leg serves. */
  lemma WalkStops(legs: seq<Leg>, first: Called, reply: Reply)
    requires legs != [] && GoodLegs(legs) && CallKeeps(legs[0].client, first)
    ensures WalkKeeps(legs, Walk([legs[0].(client := first.client)] + legs[1..], 0, reply, first.tried))
  {
    var leg, rest := legs[0].(client := first.client), legs[1..];
    var now := [leg] + rest;
    assert legs == [legs[0]] + rest && now[0] == leg && now[0..] == now;
    GoodConcat([legs[0]], rest);
    GoodConcat([leg], rest);
    LegsOfCons(leg, rest);
    LegsOfCons(legs[0], rest);
    SpentBeforeTail(first.tried, Legs(first.client), Legs(legs[0].client), LegsOf(rest));
  }

  /** The first leg gives way to the others. */
  lemma WalkGoesOn(legs: seq<Leg>, first: Called, rest: Walk)
    requires legs != [] && GoodLegs(legs) && CallKeeps(legs[0].client, first) && WalkKeeps(legs[1..], rest)
    ensures var leg := legs[0].(client := first.client);
            WalkKeeps(legs, Walk([leg] + rest.legs, rest.at + 1, rest.reply, first.tried + rest.tried))
  {
    var leg := legs[0].(client := first.client);
    var now := [leg] + rest.legs;
    assert now[rest.at + 1..] == rest.legs[rest.at..];
    assert now[rest.at + 1] == rest.legs[rest.at];
    GoodConcat([leg], rest.legs);
    assert legs == [legs[0]] + legs[1..];
    LegsOfCons(legs[0], legs[1..]);
    SpentInTurn(first.tried, Legs(first.client), Legs(legs[0].client), rest.tried, LegsOf(rest.legs[rest.at..]),
        LegsOf(legs[1..]));
  }

  lemma {:induction false} CallLegsKeep(legs: seq<Leg>, oracle: Oracle)
    requires legs != [] && GoodLegs(legs)
    ensures WalkKeeps(legs, CallLegs(legs, true, oracle))
    decreases legs
  {
    assert legs decreases to legs[0];
    var first := Call(legs[0].client, oracle);
    CallKeepsCursors(legs[0].client, oracle);
    var reply := After(true, first.reply);
    if |legs| > 1 && FallsThrough(legs[0], reply) {
      assert legs == [legs[0]] + legs[1..];
      GoodConcat([legs[0]], legs[1..]);
      var shifted := Shift(oracle, |first.tried|);
      CallLegsKeep(legs[1..], shifted);
      WalkGoesOn(legs, first, CallLegs(legs[1..], true, shifted));
    } else {
      WalkStops(legs, first, reply);
    }
  }

  /** A chain's new state, given what the walk over its eligible legs did. */
  lemma WalkToCall(skipped: seq<Leg>, eligible: seq<Leg>, serving: nat, walk: Walk)
    requires GoodLegs(skipped) && WalkKeeps(eligible, walk)
    ensures var at := |skipped| + walk.at;
            CallKeeps(Chain(skipped + eligible, true, |skipped|, serving),
                Called(Chain(skipped + walk.legs, true, at, at), walk.reply, walk.tried))
  {
    var at := |skipped| + walk.at;
    var now := Chain(skipped + walk.legs, true, at, at);
    assert (skipped + eligible)[|skipped|..] == eligible;
    assert Legs(Chain(skipped + eligible, true, |skipped|, serving)) == LegsOf(eligible);
    assert now.entries[at] == walk.legs[walk.at];
    assert now.entries[at..] == walk.legs[walk.at..];
    assert Legs(now) == LegsOf(walk.legs[walk.at..]);
    GoodConcat(skipped, walk.legs);
  }

  /**
   One call of a prepared client, for every failure pattern: the leaves still reachable
   afterwards are a suffix of those reachable before, they begin with the leaf that served,
   and no leg is attempted twice.
   */
  lemma {:induction false} CallKeepsCursors(c: Client, oracle: Oracle)
    requires Prepared(c)
    ensures CallKeeps(c, Call(c, oracle))
    decreases c
  {
    match c
    case Leaf(_) =>
    case Chain(legs, managed, start, serving) =>
      assert GoodLegs(legs);
      assert legs == legs[..start] + legs[start..];
      GoodConcat(legs[..start], legs[start..]);
      CallLegsKeep(legs[start..], oracle);
      WalkToCall(legs[..start], legs[start..], serving, CallLegs(legs[start..], true, oracle));
  }

  /** A strictly smaller set of reachable legs, cut from the front. */
  predicate Dropped(after: seq<int>, before: seq<int>) {
    Suffix(after, before) && |after| < |before|
  }

  lemma DroppedInside(after: seq<int>, before: seq<int>, tail: seq<int>)
    requires Dropped(after, before)
    ensures Dropped(after + tail, before + tail)
  {
    SuffixAppend(after, before, tail);
  }

  predicate AdvanceKeeps(c: Client, r: (Client, bool)) {
    && Prepared(r.0)
    && (if r.1 then Dropped(Legs(r.0), Legs(c)) else r.0 == c)
  }

  lemma LegsFrom(c: Client)
    requires c.Chain? && Prepared(c)
    ensures Legs(c) == Legs(c.entries[c.start].client) + LegsOf(c.entries[c.start + 1..])
  {
    assert c.entries[c.start..] == [c.entries[c.start]] + c.entries[c.start + 1..];
    LegsOfCons(c.entries[c.start], c.entries[c.start + 1..]);
  }

  lemma AdvanceInner(c: Client, inner: Client)
    requires c.Chain? && Prepared(c) && Prepared(inner)
    requires Dropped(Legs(inner), Legs(c.entries[c.start].client))
    ensures AdvanceKeeps(c, (c.(entries := c.entries[c.start := c.entries[c.start].(client := inner)]), true))
  {
    var leg := c.entries[c.start].(client := inner);
    var c' := c.(entries := c.entries[c.start := leg]);
    assert Prepared(c');
    LegsFrom(c);
    LegsFrom(c');
    assert c'.entries[c.start + 1..] == c.entries[c.start + 1..];
    DroppedInside(Legs(inner), Legs(c.entries[c.start].client), LegsOf(c.entries[c.start + 1..]));
  }

  lemma AdvanceHere(c: Client)
    requires c.Chain? && Prepared(c) && c.start + 1 < |c.entries|
    ensures AdvanceKeeps(c, (c.(start := c.start + 1), true))
  {
    LegsFrom(c);
    LegsNonEmpty(c.entries[c.start].client);
    SuffixPrepend(Legs(c.entries[c.start].client), LegsOf(c.entries[c.start + 1..]));
    assert Legs(c.(start := c.start + 1)) == LegsOf(c.entries[c.start + 1..]);
  }

  /** A refused advance changes nothing; a granted one drops at least the serving leaf. */
  lemma {:induction false} AdvanceShrinks(c: Client, error: Error)
    requires Prepared(c) && Synced(c)
    ensures AdvanceKeeps(c, Advance(c, error))
    decreases c
  {
    if c.Chain? {
      var child := c.entries[c.serving].client;
      AdvanceShrinks(child, error);
      var inner := Advance(child, error);
      if inner.1 {
        AdvanceInner(c, inner.0);
      } else if c.serving + 1 < |c.entries| && Falls(c.entries[c.serving].triggers, error) {
        AdvanceHere(c);
      }
    }
  }

  // ---- Which advance is granted, and what it gives up ----

  /** The chains on the serving path, outermost first. */
  function Path(c: Client): seq<Client>
    decreases c
  {
    match c
    case Leaf(_) => []
    case Chain(legs, _, _, serving) => [c] + (if serving < |legs| then Path(legs[serving].client) else [])
  }

  /** The chain has a leg after its serving one, of which a trigger, or none set, matches the error. */
  predicate CanMove(c: Client, error: Error) {
    && c.Chain? && c.serving + 1 < |c.entries|
    && var triggers := c.entries[c.serving].triggers;
       (triggers.None? || exists t :: t in triggers.value && TriggerMatches(t, error))
  }

  /** The paths differ in the cursor of chain `i` alone, which is now past its serving leg. */
  predicate MovedAt(before: seq<Client>, after: seq<Client>, i: nat) {
    && i < |before| == |after| && before[i].Chain?
    && after[i] == before[i].(start := before[i].serving + 1)
    && (forall j :: i < j < |before| ==> after[j] == before[j])
    && forall j :: 0 <= j < i ==>
         && before[j].Chain? && before[j].serving < |before[j].entries|
         && after[j] == ServedBy(before[j], after[j + 1])
  }

  /** The chain with another client on its serving leg. */
  function ServedBy(c: Client, client: Client): Client
    requires c.Chain? && c.serving < |c.entries|
  {
    c.(entries := c.entries[c.serving := c.entries[c.serving].(client := client)])
  }

  /** `i` is the innermost chain of the path that can move. */
  predicate Innermost(path: seq<Client>, error: Error, i: nat) {
    && i < |path| && CanMove(path[i], error)
    && forall j :: i < j < |path| ==> !CanMove(path[j], error)
  }

  lemma MovedInside(c: Client, inner: Client, i: nat)
    requires c.Chain? && c.serving < |c.entries| && MovedAt(Path(c.entries[c.serving].client), Path(inner), i)
    ensures MovedAt(Path(c), Path(ServedBy(c, inner)), i + 1)
  {
    var c' := ServedBy(c, inner);
    assert Path(c) == [c] + Path(c.entries[c.serving].client);
    assert Path(c') == [c'] + Path(inner);
    assert inner == Path(inner)[0];
  }

  lemma InnermostInside(c: Client, error: Error, i: nat)
    requires c.Chain? && c.serving < |c.entries| && Innermost(Path(c.entries[c.serving].client), error, i)
    ensures Innermost(Path(c), error, i + 1)
  {
    assert Path(c) == [c] + Path(c.entries[c.serving].client);
  }

  lemma NoneInside(c: Client, error: Error)
    requires c.Chain? && c.serving < |c.entries|
    requires forall j :: 0 <= j < |Path(c.entries[c.serving].client)| ==>
                           !CanMove(Path(c.entries[c.serving].client)[j], error)
    ensures forall j :: 0 < j < |Path(c)| ==> !CanMove(Path(c)[j], error)
  {
    assert Path(c) == [c] + Path(c.entries[c.serving].client);
  }

  /** Chain `i` of the path is the innermost that can move; it moved, nothing else changed, and what was
      given up is exactly what its serving leg could still reach. */
  predicate GrantedAt(c: Client, error: Error, after: Client, i: nat) {
    && Innermost(Path(c), error, i)
    && MovedAt(Path(c), Path(after), i)
    && Legs(c) == Legs(Path(c)[i].entries[Path(c)[i].serving].client) + Legs(after)
  }

  /**
   For every prepared client that served from its cursors: an advance is granted if and only
   if some chain on the serving path can move, and then the innermost of them moves.
   */
  lemma {:induction false} AdvanceExactly(c: Client, error: Error) returns (i: nat)
    requires Prepared(c) && Synced(c)
    ensures Advance(c, error).1 <==> exists j :: 0 <= j < |Path(c)| && CanMove(Path(c)[j], error)
    ensures if Advance(c, error).1 then GrantedAt(c, error, Advance(c, error).0, i) else Advance(c, error).0 == c
    decreases c
  {
    i := 0;
    if c.Chain? {
      var child := c.entries[c.serving].client;
      var k := AdvanceExactly(child, error);
      if Advance(child, error).1 {
        i := k + 1;
        GrantedInside(c, error, k);
      } else {
        NoneInside(c, error);
        assert Path(c)[0] == c;
        if CanMove(c, error) {
          MovesHere(c);
        }
      }
    }
  }

  lemma GrantedInside(c: Client, error: Error, i: nat)
    requires c.Chain? && Prepared(c) && Synced(c)
    requires var child := c.entries[c.serving].client;
             Advance(child, error).1 && GrantedAt(child, error, Advance(child, error).0, i)
    ensures GrantedAt(c, error, Advance(c, error).0, i + 1)
  {
    var child := c.entries[c.serving].client;
    assert Path(c) == [c] + Path(child);
    MovedInside(c, Advance(child, error).0, i);
    InnermostInside(c, error, i);
    GivenUpInside(c, error, Path(child)[i].entries[Path(child)[i].serving].client);
  }

  lemma MovesHere(c: Client)
    requires c.Chain? && Prepared(c) && Synced(c) && c.serving + 1 < |c.entries|
    ensures MovedAt(Path(c), Path(c.(start := c.serving + 1)), 0)
    ensures Legs(c) == Legs(c.entries[c.serving].client) + Legs(c.(start := c.serving + 1))
  {
    var c' := c.(start := c.serving + 1);
    LegsFrom(c);
    assert Path(c)[1..] == Path(c')[1..];
  }

  lemma GivenUpInside(c: Client, error: Error, under: Client)
    requires c.Chain? && Prepared(c) && Synced(c) && Advance(c.entries[c.serving].client, error).1
    requires Legs(c.entries[c.serving].client) == Legs(under) + Legs(Advance(c.entries[c.serving].client, error).0)
    ensures Legs(c) == Legs(under) + Legs(Advance(c, error).0)
  {
    var c' := Advance(c, error).0;
    AdvanceShrinks(c, error);
    LegsFrom(c);
    LegsFrom(c');
    assert c'.entries[c.start + 1..] == c.entries[c.start + 1..];
    Reassociate(Legs(under), Legs(c'.entries[c.start].client), LegsOf(c.entries[c.start + 1..]));
  }

  // ---- Replies ----

  /** The attempt was a failure before any output. */
  predicate Silent(reply: Reply) { reply.Fails? && !reply.emitted }

  /** Every attempt but the last failed silently, and the reply is the last one's. */
  predicate InTurn(r: seq<int>, reply: Reply, oracle: Oracle) {
    r != [] && reply == oracle(|r| - 1) && forall n :: 0 <= n < |r| - 1 ==> Silent(oracle(n))
  }

  lemma {:induction false} LegReplies(legs: seq<Leg>, oracle: Oracle)
    requires legs != [] && GoodLegs(legs)
    ensures InTurn(CallLegs(legs, true, oracle).tried, CallLegs(legs, true, oracle).reply, oracle)
    decreases legs
  {
    assert legs decreases to legs[0];
    var first := Call(legs[0].client, oracle);
    CallReplies(legs[0].client, oracle);
    if |legs| > 1 && FallsThrough(legs[0], After(true, first.reply)) {
      assert legs == [legs[0]] + legs[1..];
      GoodConcat([legs[0]], legs[1..]);
      var shifted := Shift(oracle, |first.tried|);
      LegReplies(legs[1..], shifted);
      RepliesGoOn(first.tried, CallLegs(legs[1..], true, shifted).tried, oracle);
    }
  }

  lemma RepliesGoOn(first: seq<int>, rest: seq<int>, oracle: Oracle)
    requires first != [] && rest != []
    requires forall n :: 0 <= n < |first| ==> Silent(oracle(n))
    requires forall n :: 0 <= n < |rest| - 1 ==> Silent(Shift(oracle, |first|)(n))
    ensures InTurn(first + rest, Shift(oracle, |first|)(|rest| - 1), oracle)
  {
    forall n | 0 <= n < |first + rest| - 1 ensures Silent(oracle(n)) {
      if n >= |first| {
        assert Shift(oracle, |first|)(n - |first|) == oracle(n);
      }
    }
  }

  /** A prepared client, for every failure pattern: no attempt follows one that gave output, an answer
      or an empty completion, and the caller gets the last attempt's reply as it was. */
  lemma {:induction false} CallReplies(c: Client, oracle: Oracle)
    requires Prepared(c)
    ensures InTurn(Call(c, oracle).tried, Call(c, oracle).reply, oracle)
    decreases c
  {
    match c
    case Leaf(_) =>
    case Chain(legs, _, start, _) =>
      assert legs == legs[..start] + legs[start..];
      GoodConcat(legs[..start], legs[start..]);
      LegReplies(legs[start..], oracle);
  }

  /** What the i-th leg does when the legs are called one after the other. */
  function LegCall(legs: seq<Leg>, oracle: Oracle, i: nat): Called
    requires i < |legs|
    decreases i
  {
    var first := Call(legs[0].client, oracle);
    if i == 0 then first else LegCall(legs[1..], Shift(oracle, |first.tried|), i - 1)
  }

  /** A silent failure, or an empty completion nobody else manages, that the leg's triggers match. */
  predicate GivesWayOn(leg: Leg, managed: bool, reply: Reply) {
    var error := if reply.Fails? then reply.error else EMPTY_COMPLETION;
    && (Silent(reply) || (reply.Empty? && !managed))
    && (leg.triggers.None? || exists t :: t in leg.triggers.value && TriggerMatches(t, error))
  }

  /** The first leg that does not give way, or else the last one, serves: the legs before it gave way,
      the legs after it are not called. */
  predicate FirstToHold(legs: seq<Leg>, managed: bool, oracle: Oracle, w: Walk) {
    && w.at < |legs| == |w.legs|
    && (forall i :: 0 <= i < w.at ==> GivesWayOn(legs[i], managed, LegCall(legs, oracle, i).reply))
    && (w.at == |legs| - 1 || !GivesWayOn(legs[w.at], managed, LegCall(legs, oracle, w.at).reply))
    && (forall i :: 0 <= i < |legs| ==>
          w.legs[i] == if i <= w.at then legs[i].(client := LegCall(legs, oracle, i).client) else legs[i])
    && var last := LegCall(legs, oracle, w.at).reply;
       w.reply == if last.Empty? && !managed then Fails(EMPTY_COMPLETION, false) else last
  }

  lemma GivesWayOnIff(leg: Leg, managed: bool, reply: Reply)
    ensures FallsThrough(leg, After(managed, reply)) <==> GivesWayOn(leg, managed, reply)
  {}

  lemma NextToHold(legs: seq<Leg>, managed: bool, oracle: Oracle, rest: Walk)
    requires |legs| > 1
    requires var first := Call(legs[0].client, oracle);
             && GivesWayOn(legs[0], managed, first.reply)
             && FirstToHold(legs[1..], managed, Shift(oracle, |first.tried|), rest)
    ensures var first := Call(legs[0].client, oracle);
            var leg := legs[0].(client := first.client);
            FirstToHold(legs, managed, oracle,
                Walk([leg] + rest.legs, rest.at + 1, rest.reply, first.tried + rest.tried))
  {
    var first, others := Call(legs[0].client, oracle), legs[1..];
    var shifted := Shift(oracle, |first.tried|);
    forall i | 0 < i < |legs| ensures LegCall(legs, oracle, i) == LegCall(others, shifted, i - 1) {}
    forall i | 0 < i < |legs| ensures legs[i] == others[i - 1] {}
  }

  /** So it is in every chain, managed or not, for every failure pattern. */
  lemma {:induction false} FirstToHoldServes(legs: seq<Leg>, managed: bool, oracle: Oracle)
    requires legs != []
    ensures FirstToHold(legs, managed, oracle, CallLegs(legs, managed, oracle))
    decreases legs
  {
    assert legs decreases to legs[0];
    var first := Call(legs[0].client, oracle);
    GivesWayOnIff(legs[0], managed, first.reply);
    if |legs| > 1 && FallsThrough(legs[0], After(managed, first.reply)) {
      var shifted := Shift(oracle, |first.tried|);
      FirstToHoldServes(legs[1..], managed, shifted);
      NextToHold(legs, managed, oracle, CallLegs(legs[1..], managed, shifted));
    }
  }

  /** A shared chain never answers with an empty completion: it fails over, or fails with one. */
  lemma {:induction false} SharedNeverEmpty(c: Client, oracle: Oracle)
    requires Shared(c) && c.Chain?
    ensures !Call(c, oracle).reply.Empty?
  {
    SharedLegsNeverEmpty(c.entries[c.start..], oracle);
  }

  lemma {:induction false} SharedLegsNeverEmpty(legs: seq<Leg>, oracle: Oracle)
    requires legs != []
    ensures !CallLegs(legs, false, oracle).reply.Empty?
    decreases legs
  {
    assert legs decreases to legs[0];
    var first := Call(legs[0].client, oracle);
    if |legs| > 1 && FallsThrough(legs[0], After(false, first.reply)) {
      SharedLegsNeverEmpty(legs[1..], Shift(oracle, |first.tried|));
    }
  }

  // ---- Nothing is skipped when every trigger matches ----

  predicate MatchesAll(triggers: Option<seq<Trigger>>) { triggers.None? || AnyError in triggers.value }

  /** Every leg, at every depth, gives way on any error. */
  predicate Open(c: Client)
    decreases c
  {
    match c
    case Leaf(_) => true
    case Chain(legs, _, _, _) => forall l :: l in legs ==> MatchesAll(l.triggers) && Open(l.client)
  }

  predicate OpenLegs(legs: seq<Leg>) { forall l :: l in legs ==> MatchesAll(l.triggers) && Open(l.client) }

  lemma OpenConcat(a: seq<Leg>, b: seq<Leg>)
    ensures OpenLegs(a + b) <==> OpenLegs(a) && OpenLegs(b)
  {
    if OpenLegs(a + b) {
      forall l | l in a || l in b ensures l in a + b {}
    }
  }

  lemma MatchesAllFalls(triggers: Option<seq<Trigger>>, error: Error)
    requires MatchesAll(triggers)
    ensures Falls(triggers, error)
  {
    if triggers.Some? {
      assert TriggerMatches(AnyError, error);
    }
  }

  /** The leaves `before` were attempted in order up to the first of `after`, where an attempt was no
      silent failure or there was nothing left. */
  predicate Walked(before: seq<int>, tried: seq<int>, after: seq<int>, oracle: Oracle) {
    && tried != [] && after != [] && before == tried + after[1..]
    && (|after| == 1 || !Silent(oracle(|tried| - 1)))
  }

  predicate OpenWalk(legs: seq<Leg>, w: Walk, oracle: Oracle) {
    && w.at < |w.legs| && OpenLegs(w.legs)
    && Walked(LegsOf(legs), w.tried, LegsOf(w.legs[w.at..]), oracle)
  }

  lemma {:induction false} OpenLegsWalk(legs: seq<Leg>, oracle: Oracle)
    requires legs != [] && GoodLegs(legs) && OpenLegs(legs)
    ensures OpenWalk(legs, CallLegs(legs, true, oracle), oracle)
    decreases legs
  {
    assert legs decreases to legs[0];
    var first, others := Call(legs[0].client, oracle), legs[1..];
    OpenCallWalks(legs[0].client, oracle);
    CallReplies(legs[0].client, oracle);
    MatchesAllFalls(legs[0].triggers, if first.reply.Fails? then first.reply.error else EXHAUSTED);
    var reply := After(true, first.reply);
    if |legs| > 1 && FallsThrough(legs[0], reply) {
      assert legs == [legs[0]] + others;
      GoodConcat([legs[0]], others);
      OpenConcat([legs[0]], others);
      var shifted := Shift(oracle, |first.tried|);
      OpenLegsWalk(others, shifted);
      OpenGoesOn(legs, first, CallLegs(others, true, shifted), oracle);
    } else {
      OpenStops(legs, first, reply, oracle);
    }
  }

  lemma OpenGoesOn(legs: seq<Leg>, first: Called, rest: Walk, oracle: Oracle)
    requires legs != [] && OpenLegs(legs) && Open(first.client)
    requires Walked(Legs(legs[0].client), first.tried, Legs(first.client), oracle) && Silent(oracle(|first.tried| - 1))
    requires OpenWalk(legs[1..], rest, Shift(oracle, |first.tried|))
    ensures var leg := legs[0].(client := first.client);
            OpenWalk(legs, Walk([leg] + rest.legs, rest.at + 1, rest.reply, first.tried + rest.tried), oracle)
  {
    var leg, after := legs[0].(client := first.client), LegsOf(rest.legs[rest.at..]);
    assert ([leg] + rest.legs)[rest.at + 1..] == rest.legs[rest.at..];
    assert legs == [legs[0]] + legs[1..];
    OpenConcat([leg], rest.legs);
    LegsOfCons(legs[0], legs[1..]);
    assert Legs(legs[0].client) == first.tried;
    Reassociate(first.tried, rest.tried, after[1..]);
    assert Shift(oracle, |first.tried|)(|rest.tried| - 1) == oracle(|first.tried + rest.tried| - 1);
  }

  lemma OpenStops(legs: seq<Leg>, first: Called, reply: Reply, oracle: Oracle)
    requires legs != [] && OpenLegs(legs) && Open(first.client)
    requires Walked(Legs(legs[0].client), first.tried, Legs(first.client), oracle)
    requires |legs| == 1 || !Silent(oracle(|first.tried| - 1))
    ensures OpenWalk(legs, Walk([legs[0].(client := first.client)] + legs[1..], 0, reply, first.tried), oracle)
  {
    var leg, others := legs[0].(client := first.client), legs[1..];
    var now := [leg] + others;
    assert now[0..] == now && legs == [legs[0]] + others;
    OpenConcat([legs[0]], others);
    OpenConcat([leg], others);
    LegsOfCons(leg, others);
    LegsOfCons(legs[0], others);
    var tail := LegsOf(others);
    WalkedBeforeTail(Legs(legs[0].client), first.tried, Legs(first.client), tail, oracle);
  }

  lemma WalkedBeforeTail(before: seq<int>, tried: seq<int>, after: seq<int>, tail: seq<int>, oracle: Oracle)
    requires Walked(before, tried, after, oracle) && (tail == [] || !Silent(oracle(|tried| - 1)))
    ensures Walked(before + tail, tried, after + tail, oracle)
  {
    assert (after + tail)[1..] == after[1..] + tail;
    Reassociate(tried, after[1..], tail);
  }

  /** However chains are nested, an open client attempts its leaves one after the other, without
      skipping any, until one is no silent failure. */
  lemma {:induction false} OpenCallWalks(c: Client, oracle: Oracle)
    requires Prepared(c) && Open(c)
    ensures Open(Call(c, oracle).client)
    ensures Walked(Legs(c), Call(c, oracle).tried, Legs(Call(c, oracle).client), oracle)
    decreases c
  {
    match c
    case Leaf(_) =>
    case Chain(legs, _, start, _) =>
      assert legs == legs[..start] + legs[start..];
      GoodConcat(legs[..start], legs[start..]);
      OpenConcat(legs[..start], legs[start..]);
      OpenLegsWalk(legs[start..], oracle);
      var walk := CallLegs(legs[start..], true, oracle);
      OpenConcat(legs[..start], walk.legs);
      assert (legs[..start] + walk.legs)[start + walk.at..] == walk.legs[walk.at..];
  }

  lemma {:induction false} LegsOfNonEmpty(legs: seq<Leg>)
    requires legs != [] && GoodLegs(legs)
    ensures LegsOf(legs) != []
  {
    LegsNonEmpty(legs[0].client);
  }

  lemma LaterLegs(c: Client)
    requires c.Chain? && Prepared(c)
    ensures c.serving + 1 < |c.entries| <==> LegsOf(c.entries[c.serving + 1..]) != []
  {
    var later := c.entries[c.serving + 1..];
    if later != [] {
      assert c.entries == c.entries[..c.serving + 1] + later;
      GoodConcat(c.entries[..c.serving + 1], later);
      LegsOfNonEmpty(later);
    }
  }

  /** An open client gives up its serving leaf alone, as long as there is another one. */
  lemma {:induction false} OpenAdvance(c: Client, error: Error)
    requires Prepared(c) && Synced(c) && Open(c)
    ensures Open(Advance(c, error).0)
    ensures Advance(c, error).1 <==> |Legs(c)| > 1
    ensures Advance(c, error).1 ==> Legs(Advance(c, error).0) == Legs(c)[1..]
    decreases c
  {
    if c.Chain? {
      var leg := c.entries[c.serving];
      OpenAdvance(leg.client, error);
      MatchesAllFalls(leg.triggers, error);
      LegsFrom(c);
      LegsNonEmpty(leg.client);
      LaterLegs(c);
      var inner := Advance(leg.client, error);
      if inner.1 {
        GivenUpInside(c, error, Leaf(Legs(c)[0]));
        assert Legs(Leaf(Legs(c)[0])) == [Legs(c)[0]];
      }
    }
  }

  // ---- Runs ----

  /** One round of recovery: a call, then a request to give the serving leg up. */
  datatype Round = Round(oracle: Oracle, error: Error)

  datatype Tally = Tally(client: Client, advances: nat, attempts: nat)

  function Run(c: Client, rounds: seq<Round>): Tally
    requires Prepared(c)
    decreases |rounds|
  {
    if rounds == [] then Tally(c, 0, 0)
    else
      CallKeepsCursors(c, rounds[0].oracle);
      var called := Call(c, rounds[0].oracle);
      AdvanceShrinks(called.client, rounds[0].error);
      var moved := Advance(called.client, rounds[0].error);
      var rest := Run(moved.0, rounds[1..]);
      Tally(rest.client, rest.advances + (if moved.1 then 1 else 0), rest.attempts + |called.tried|)
  }

  /**
   Over every alternation of calls and advances: reachable legs only shrink from the front;
   there are fewer granted advances than leaves; and when every advance is granted the
   calls together attempt no more legs than there were.
   */
  lemma {:induction false} RecoveryTerminates(c: Client, rounds: seq<Round>)
    requires Prepared(c)
    ensures var t := Run(c, rounds);
            && Prepared(t.client) && Suffix(Legs(t.client), Legs(c))
            && t.advances + |Legs(t.client)| <= |Legs(c)| && t.advances < |Legs(c)|
            && t.attempts + |Legs(t.client)| + t.advances <= |Legs(c)| + |rounds|
    decreases |rounds|
  {
    if rounds == [] {
      LegsNonEmpty(c);
    } else {
      var moved, tried := RoundShrinks(c, rounds[0]);
      RecoveryTerminates(moved.0, rounds[1..]);
      SuffixTrans(Legs(Run(moved.0, rounds[1..]).client), Legs(moved.0), Legs(c));
    }
  }

  lemma RoundShrinks(c: Client, round: Round) returns (moved: (Client, bool), tried: seq<int>)
    requires Prepared(c)
    ensures var called := Call(c, round.oracle);
            tried == called.tried && moved == Advance(called.client, round.error)
    ensures Prepared(moved.0) && Suffix(Legs(moved.0), Legs(c))
    ensures |tried| + |Legs(moved.0)| + (if moved.1 then 1 else 0) <= |Legs(c)| + 1
    ensures |Legs(moved.0)| + (if moved.1 then 1 else 0) <= |Legs(c)|
  {
    CallKeepsCursors(c, round.oracle);
    var called := Call(c, round.oracle);
    AdvanceShrinks(called.client, round.error);
    moved := Advance(called.client, round.error);
    tried := called.tried;
    RoundCounts(tried, Legs(c), Legs(called.client), Legs(moved.0), moved.1);
  }

  lemma RoundCounts(tried: seq<int>, before: seq<int>, between: seq<int>, after: seq<int>, moved: bool)
    requires Spent(tried, between, before)
    requires if moved then Dropped(after, between) else after == between
    ensures Suffix(after, before)
    ensures |tried| + |after| + (if moved then 1 else 0) <= |before| + 1
    ensures |after| + (if moved then 1 else 0) <= |before|
  {
    SuffixTrans(after, between, before);
  }

  // ---- Cursors, node by node ----

  predicate SameLeg(l: Leg, l': Leg)
    decreases l
  {
    l.triggers == l'.triggers && NeverBack(l.client, l'.client)
  }

  /** The same tree of chains, in which no cursor has moved back. */
  predicate NeverBack(c: Client, c': Client)
    decreases c
  {
    match c
    case Leaf(_) => c == c'
    case Chain(legs, managed, start, _) =>
      && c'.Chain? && managed == c'.managed && |legs| == |c'.entries| && start <= c'.start
      && forall i :: 0 <= i < |legs| ==> SameLeg(legs[i], c'.entries[i])
  }

  lemma {:induction false} NeverBackRefl(c: Client)
    ensures NeverBack(c, c)
    decreases c
  {
    if c.Chain? {
      forall i | 0 <= i < |c.entries| ensures SameLeg(c.entries[i], c.entries[i]) {
        NeverBackRefl(c.entries[i].client);
      }
    }
  }

  lemma {:induction false} NeverBackTrans(c: Client, d: Client, e: Client)
    requires NeverBack(c, d) && NeverBack(d, e)
    ensures NeverBack(c, e)
    decreases c
  {
    if c.Chain? {
      forall i | 0 <= i < |c.entries| ensures SameLeg(c.entries[i], e.entries[i]) {
        assert SameLeg(c.entries[i], d.entries[i]) && SameLeg(d.entries[i], e.entries[i]);
        NeverBackTrans(c.entries[i].client, d.entries[i].client, e.entries[i].client);
      }
    }
  }

  lemma {:induction false} CallLegsNeverBack(legs: seq<Leg>, managed: bool, oracle: Oracle)
    requires legs != []
    ensures var w := CallLegs(legs, managed, oracle);
            && |w.legs| == |legs| && w.at < |legs|
            && forall i :: 0 <= i < |legs| ==> SameLeg(legs[i], w.legs[i])
    decreases legs
  {
    assert legs decreases to legs[0];
    var first := Call(legs[0].client, oracle);
    CallNeverBack(legs[0].client, oracle);
    assert SameLeg(legs[0], legs[0].(client := first.client));
    var w := CallLegs(legs, managed, oracle);
    var others := legs[1..];
    if |legs| > 1 && FallsThrough(legs[0], After(managed, first.reply)) {
      var shifted := Shift(oracle, |first.tried|);
      CallLegsNeverBack(others, managed, shifted);
      forall i | 0 < i < |legs| ensures SameLeg(legs[i], w.legs[i]) {
        assert legs[i] == others[i - 1] && w.legs[i] == CallLegs(others, managed, shifted).legs[i - 1];
      }
    } else {
      forall i | 0 < i < |legs| ensures SameLeg(legs[i], w.legs[i]) {
        assert legs[i] == others[i - 1] && w.legs[i] == others[i - 1];
        NeverBackRefl(legs[i].client);
      }
    }
  }

  /** Whatever its leaves reply, a call moves no cursor back anywhere in the tree. */
  lemma {:induction false} CallNeverBack(c: Client, oracle: Oracle)
    ensures NeverBack(c, Call(c, oracle).client)
    decreases c
  {
    NeverBackRefl(c);
    if c.Chain? && c.start < |c.entries| {
      var eligible := c.entries[c.start..];
      CallLegsNeverBack(eligible, c.managed, oracle);
      var walk := CallLegs(eligible, c.managed, oracle);
      var now := Call(c, oracle).client;
      forall i | 0 <= i < |c.entries| ensures SameLeg(c.entries[i], now.entries[i]) {
        if i < c.start {
          NeverBackRefl(c.entries[i].client);
        } else {
          assert c.entries[i] == eligible[i - c.start] && now.entries[i] == walk.legs[i - c.start];
        }
      }
    }
  }

  lemma {:induction false} AdvanceNeverBack(c: Client, error: Error)
    requires Synced(c)
    ensures NeverBack(c, Advance(c, error).0)
    decreases c
  {
    NeverBackRefl(c);
    if c.Chain? {
      var child := c.entries[c.serving].client;
      AdvanceNeverBack(child, error);
      var now := Advance(c, error).0;
      forall i | 0 <= i < |c.entries| ensures SameLeg(c.entries[i], now.entries[i]) {
        assert now.entries[i] == c.entries[i] || i == c.serving;
        NeverBackRefl(c.entries[i].client);
      }
    }
  }

  lemma {:induction false} CursorsNeverMoveBack(c: Client, rounds: seq<Round>)
    requires Prepared(c)
    ensures NeverBack(c, Run(c, rounds).client)
    decreases |rounds|
  {
    NeverBackRefl(c);
    if rounds != [] {
      CallKeepsCursors(c, rounds[0].oracle);
      var called := Call(c, rounds[0].oracle).client;
      CallNeverBack(c, rounds[0].oracle);
      AdvanceShrinks(called, rounds[0].error);
      AdvanceNeverBack(called, rounds[0].error);
      var moved := Advance(called, rounds[0].error).0;
      NeverBackTrans(c, called, moved);
      CursorsNeverMoveBack(moved, rounds[1..]);
      NeverBackTrans(c, moved, Run(moved, rounds[1..]).client);
    }
  }

  /** Without a call in between, a granted advance is granted again and gives up nothing more. */
  lemma {:induction false} RepeatedAdvanceStalls(c: Client, error: Error)
    requires Advance(c, error).1
    ensures Advance(Advance(c, error).0, error) == Advance(c, error)
    decreases c
  {
    if c.Chain? {
      var inner := Advance(c.entries[c.serving].client, error);
      if c.managed && inner.1 {
        RepeatedAdvanceStalls(c.entries[c.serving].client, error);
        var moved := c.entries[c.serving := c.entries[c.serving].(client := inner.0)];
        assert moved[c.serving := moved[c.serving].(client := inner.0)] == moved;
      }
    }
  }

  // ---- Preparing and sharing ----

  /** Every leaf under a client, whatever its cursors. */
  function Leaves(c: Client): seq<int>
    decreases c
  {
    match c
    case Leaf(id) => [id]
    case Chain(legs, _, _, _) => LeavesOf(legs)
  }

  function LeavesOf(legs: seq<Leg>): seq<int>
    decreases legs
  {
    if legs == [] then [] else assert legs decreases to legs[0]; Leaves(legs[0].client) + LeavesOf(legs[1..])
  }

  /** The same tree with the same triggers, whatever the cursors. */
  predicate SameTree(c: Client, d: Client)
    decreases c
  {
    match c
    case Leaf(_) => c == d
    case Chain(legs, _, _, _) =>
      d.Chain? && |legs| == |d.entries|
      && forall i :: 0 <= i < |legs| ==> SameBranch(legs[i], d.entries[i])
  }

  predicate SameBranch(l: Leg, m: Leg)
    decreases l
  {
    l.triggers == m.triggers && SameTree(l.client, m.client)
  }

  lemma {:induction false} PreparedIsSameTree(c: Client)
    ensures SameTree(c, ForLogicalCall(c))
    decreases c
  {
    if c.Chain? {
      forall i | 0 <= i < |c.entries| ensures SameBranch(c.entries[i], ForLogicalCall(c).entries[i]) {
        PreparedIsSameTree(c.entries[i].client);
      }
    }
  }

  lemma {:induction false} PreparedIsFresh(c: Client)
    requires Valid(c)
    ensures var p := ForLogicalCall(c);
            Prepared(p) && Synced(p) && Legs(p) == Leaves(c) && Leaves(p) == Leaves(c)
    decreases c
  {
    match c
    case Leaf(_) =>
    case Chain(legs, _, _, _) =>
      var p := ForLogicalCall(c);
      forall i | 0 <= i < |legs|
        ensures var q := ForLogicalCall(legs[i].client);
                Prepared(q) && Synced(q) && Legs(q) == Leaves(legs[i].client) && Leaves(q) == Leaves(legs[i].client)
      {
        PreparedIsFresh(legs[i].client);
      }
      assert p.entries[0..] == p.entries;
      SameLeaves(p.entries, legs);
  }

  lemma {:induction false} SameLeaves(prepared: seq<Leg>, legs: seq<Leg>)
    requires |prepared| == |legs|
    requires forall i :: 0 <= i < |legs| ==>
                           Legs(prepared[i].client) == Leaves(legs[i].client) == Leaves(prepared[i].client)
    ensures LegsOf(prepared) == LeavesOf(legs) == LeavesOf(prepared)
    decreases |legs|
  {
    if legs != [] {
      SameLeaves(prepared[1..], legs[1..]);
    }
  }

  /** The leaves attempted over all rounds, in order. */
  function TriedOver(c: Client, rounds: seq<Round>): seq<int>
    requires Prepared(c)
    decreases |rounds|
  {
    if rounds == [] then []
    else
      CallKeepsCursors(c, rounds[0].oracle);
      var called := Call(c, rounds[0].oracle);
      AdvanceShrinks(called.client, rounds[0].error);
      called.tried + TriedOver(Advance(called.client, rounds[0].error).0, rounds[1..])
  }

  lemma {:induction false} TriesAllLegs(c: Client, rounds: seq<Round>)
    requires Prepared(c) && Open(c) && |rounds| >= |Legs(c)|
    ensures Legs(c) <= TriedOver(c, rounds)
    decreases |rounds|
  {
    LegsNonEmpty(c);
    var oracle, error := rounds[0].oracle, rounds[0].error;
    var called := Call(c, oracle);
    CallKeepsCursors(c, oracle);
    OpenCallWalks(c, oracle);
    OpenAdvance(called.client, error);
    AdvanceShrinks(called.client, error);
    var moved := Advance(called.client, error);
    if moved.1 {
      TriesAllLegs(moved.0, rounds[1..]);
    }
  }

  lemma {:induction false} PreparedIsOpen(c: Client)
    requires Open(c)
    ensures Open(ForLogicalCall(c))
    decreases c
  {
    if c.Chain? {
      forall i | 0 <= i < |c.entries| ensures Open(ForLogicalCall(c.entries[i].client)) {
        PreparedIsOpen(c.entries[i].client);
      }
    }
  }

  /** If every trigger matches, as many rounds as there are leaves attempt every leaf of the client,
      the first time in order, whatever the replies. */
  lemma EveryLeafIsReached(c: Client, rounds: seq<Round>)
    requires Valid(c) && Open(c) && |rounds| >= |Leaves(c)|
    ensures Prepared(ForLogicalCall(c)) && Leaves(c) <= TriedOver(ForLogicalCall(c), rounds)
  {
    PreparedIsFresh(c);
    PreparedIsOpen(c);
    TriesAllLegs(ForLogicalCall(c), rounds);
  }

  /** A shared chain never moves its cursor and grants no advance. */
  lemma {:induction false} SharedStaysAtStart(c: Client, oracle: Oracle, error: Error)
    requires Shared(c)
    ensures Shared(Call(c, oracle).client)
    ensures Leaves(Call(c, oracle).client) == Leaves(c)
    ensures Advance(c, error) == (c, false)
    decreases c
  {
    match c
    case Leaf(_) =>
    case Chain(legs, _, start, serving) =>
      SharedLegs(legs, oracle);
      assert legs[start..] == legs;
      var walk := CallLegs(legs, false, oracle);
      assert legs[..0] + walk.legs == walk.legs;
  }

  lemma {:induction false} SharedLegs(legs: seq<Leg>, oracle: Oracle)
    requires legs != [] && forall l :: l in legs ==> Shared(l.client)
    ensures var w := CallLegs(legs, false, oracle);
            && |w.legs| == |legs| && w.at < |legs| && LeavesOf(w.legs) == LeavesOf(legs)
            && forall l :: l in w.legs ==> Shared(l.client)
    decreases legs
  {
    assert legs decreases to legs[0];
    var first := Call(legs[0].client, oracle);
    SharedStaysAtStart(legs[0].client, oracle, EXHAUSTED);
    var w := CallLegs(legs, false, oracle);
    if |legs| > 1 && FallsThrough(legs[0], After(false, first.reply)) {
      SharedLegs(legs[1..], Shift(oracle, |first.tried|));
    }
    assert w.legs[0] == legs[0].(client := first.client);
    assert w.legs == [w.legs[0]] + w.legs[1..];
  }
}
