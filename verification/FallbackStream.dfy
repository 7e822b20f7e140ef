/**
 Provider failover over streams: the filter that holds back deltas until a completion
 signal, and the chain that may switch provider only before any model output was seen.
 */
module FallbackStream {
  import opened Common

  /** Transport activity carries no model output. `signal`: the delta proves the completion
      is not empty. `provider` is the vendor stamp. */
  datatype Delta = Transport | Model(body: string, signal: bool, provider: string)

  datatype Trigger = Timeout | RateLimit | ServerError | AnyError | EmptyCompletion

  /** What trigger matching looks at: class, lower-cased class name and message, status code. */
  datatype Error = Error(isEmptyCompletion: bool, isTimeout: bool, name: string, message: string, status: Option<int>)

  const EMPTY_COMPLETION := Error(true, false, "llmemptycompletion", "", None)
  const EXHAUSTED := Error(false, false, "runtimeerror", "llmfallbackchain exhausted", None)

  /** What iterating a client's stream gives: deltas, then a normal end or an error. */
  datatype Stream = Stream(deltas: seq<Delta>, error: Option<Error>)

  predicate OccursAt(text: string, part: string, i: nat) {
    i + |part| <= |text| && text[i..i + |part|] == part
  }

  predicate Contains(text: string, part: string) {
    exists i: nat :: i <= |text| && OccursAt(text, part, i)
  }

  predicate TriggerMatches(t: Trigger, e: Error) {
    match t
    case AnyError => true
    case EmptyCompletion => e.isEmptyCompletion
    case Timeout =>
      e.isTimeout || Contains(e.name, "timeout") || Contains(e.message, "timeout") || Contains(e.message, "timed out")
    case RateLimit =>
      e.status == Some(429) || Contains(e.message, "rate limit") || Contains(e.message, "rate_limit")
      || Contains(e.message, "quota") || Contains(e.message, "too many requests")
    case ServerError =>
      (e.status.Some? && 500 <= e.status.value <= 599)
      || Contains(e.message, "internal server error") || Contains(e.message, "bad gateway")
      || Contains(e.message, "service unavailable") || Contains(e.message, "gateway timeout")
      || Contains(e.message, "503") || Contains(e.message, "502") || Contains(e.message, "500")
      || Contains(e.message, "504")
  }

  /** An unset trigger list falls through on any error; an empty one is a hard barrier. */
  predicate Falls(triggers: Option<seq<Trigger>>, e: Error) {
    if triggers.None? then true else exists t :: t in triggers.value && TriggerMatches(t, e)
  }

  // ---- The empty-stream filter ----

  predicate Signals(d: Delta) { d.Model? && d.signal }

  predicate HasSignal(ds: seq<Delta>) { exists i :: 0 <= i < |ds| && ds[i].Model? && ds[i].signal }

  function ModelOutput(ds: seq<Delta>): seq<Delta> {
    if ds == [] then [] else (if ds[0].Model? then [ds[0]] else []) + ModelOutput(ds[1..])
  }

  function TransportOnly(ds: seq<Delta>): seq<Delta> {
    if ds == [] then [] else (if ds[0].Model? then [] else [ds[0]]) + TransportOnly(ds[1..])
  }

  /** Deltas yielded while `pending` is held back. */
  function Filtered(ds: seq<Delta>, pending: seq<Delta>, committed: bool): seq<Delta>
    decreases |ds|
  {
    if ds == [] then []
    else if ds[0].Transport? || committed then [ds[0]] + Filtered(ds[1..], pending, committed)
    else if Signals(ds[0]) then pending + [ds[0]] + Filtered(ds[1..], [], true)
    else Filtered(ds[1..], pending + [ds[0]], false)
  }

  function NonEmpty(s: Stream): Stream {
    Stream(Filtered(s.deltas, [], false),
           if s.error.Some? then s.error else if HasSignal(s.deltas) then None else Some(EMPTY_COMPLETION))
  }

  method NonEmptyStream(s: Stream) returns (out: Stream)
    ensures out == NonEmpty(s)
  {
    var pending: seq<Delta> := [];
    var committed := false;
    var yielded: seq<Delta> := [];
    for i := 0 to |s.deltas|
      invariant committed <==> HasSignal(s.deltas[..i])
      invariant yielded + Filtered(s.deltas[i..], pending, committed) == Filtered(s.deltas, [], false)
    {
      var delta := s.deltas[i];
      ghost var rest := s.deltas[i + 1..];
      assert s.deltas[i..][0] == delta && s.deltas[i..][1..] == rest;
      SignalAppend(s.deltas[..i], delta);
      assert s.deltas[..i + 1] == s.deltas[..i] + [delta];
      if delta.Transport? {
        Reassociate(yielded, [delta], Filtered(rest, pending, committed));
        yielded := yielded + [delta];
      } else if committed {
        Reassociate(yielded, [delta], Filtered(rest, pending, committed));
        yielded := yielded + [delta];
      } else if Signals(delta) {
        Reassociate(yielded, pending + [delta], Filtered(rest, [], true));
        committed := true;
        yielded := yielded + (pending + [delta]);
        pending := [];
      } else {
        pending := pending + [delta];
      }
    }
    assert s.deltas[..|s.deltas|] == s.deltas && s.deltas[|s.deltas|..] == [];
    if s.error.Some? {
      return Stream(yielded, s.error);
    }
    if !committed {
      return Stream(yielded, Some(EMPTY_COMPLETION));
    }
    return Stream(yielded, None);
  }

  lemma SignalAppend(ds: seq<Delta>, d: Delta)
    ensures HasSignal(ds + [d]) <==> HasSignal(ds) || Signals(d)
  {
    var all := ds + [d];
    assert all[|ds|] == d && forall i :: 0 <= i < |ds| ==> all[i] == ds[i];
    if HasSignal(ds) {
      var i :| 0 <= i < |ds| && ds[i].Model? && ds[i].signal;
      assert all[i].Model? && all[i].signal;
    }
    if HasSignal(all) && !Signals(d) {
      var i :| 0 <= i < |all| && all[i].Model? && all[i].signal;
      assert ds[i] == all[i];
    }
  }

  lemma {:induction false} ModelOutputConcat(a: seq<Delta>, b: seq<Delta>)
    ensures ModelOutput(a + b) == ModelOutput(a) + ModelOutput(b)
  {
    if a == [] {
      assert a + b == b;
    } else {
      assert (a + b)[1..] == a[1..] + b && (a + b)[0] == a[0];
      ModelOutputConcat(a[1..], b);
      Reassociate(if a[0].Model? then [a[0]] else [], ModelOutput(a[1..]), ModelOutput(b));
    }
  }

  lemma {:induction false} TransportConcat(a: seq<Delta>, b: seq<Delta>)
    ensures TransportOnly(a + b) == TransportOnly(a) + TransportOnly(b)
  {
    if a == [] {
      assert a + b == b;
    } else {
      assert (a + b)[1..] == a[1..] + b && (a + b)[0] == a[0];
      TransportConcat(a[1..], b);
      Reassociate(if a[0].Model? then [] else [a[0]], TransportOnly(a[1..]), TransportOnly(b));
    }
  }

  predicate AllModel(ds: seq<Delta>) { forall d :: d in ds ==> d.Model? }

  lemma {:induction false} AllModelOutput(ds: seq<Delta>)
    requires AllModel(ds)
    ensures ModelOutput(ds) == ds && TransportOnly(ds) == []
  {
    if ds != [] {
      AllModelOutput(ds[1..]);
    }
  }

  lemma SignalTail(ds: seq<Delta>)
    requires ds != []
    ensures HasSignal(ds) <==> Signals(ds[0]) || HasSignal(ds[1..])
  {
    if HasSignal(ds) && !Signals(ds[0]) {
      var i :| 0 <= i < |ds| && Signals(ds[i]);
      assert ds[1..][i - 1] == ds[i];
    }
    if HasSignal(ds[1..]) {
      var i :| 0 <= i < |ds[1..]| && Signals(ds[1..][i]);
      assert ds[i + 1] == ds[1..][i];
    }
  }

  predicate KeptApart(ds: seq<Delta>, out: seq<Delta>, pending: seq<Delta>, committed: bool) {
    && TransportOnly(out) == TransportOnly(ds)
    && ModelOutput(out) == (if committed || HasSignal(ds) then pending + ModelOutput(ds) else [])
  }

  lemma KeptPassing(d: Delta, ds: seq<Delta>, out: seq<Delta>, pending: seq<Delta>, committed: bool)
    requires KeptApart(ds, out, pending, committed)
    requires d.Transport? || (committed && pending == [])
    ensures KeptApart([d] + ds, [d] + out, pending, committed)
  {
    assert ([d] + ds)[1..] == ds && ([d] + out)[1..] == out;
    SignalTail([d] + ds);
  }

  lemma KeptCommitting(d: Delta, ds: seq<Delta>, out: seq<Delta>, pending: seq<Delta>)
    requires KeptApart(ds, out, [], true) && AllModel(pending) && Signals(d)
    ensures KeptApart([d] + ds, pending + [d] + out, pending, false)
  {
    assert ([d] + ds)[1..] == ds;
    SignalTail([d] + ds);
    ModelOutputConcat(pending + [d], out);
    TransportConcat(pending + [d], out);
    AllModelOutput(pending + [d]);
    Reassociate(pending, [d], ModelOutput(out));
  }

  lemma KeptHolding(d: Delta, ds: seq<Delta>, out: seq<Delta>, pending: seq<Delta>)
    requires KeptApart(ds, out, pending + [d], false) && d.Model? && !Signals(d)
    ensures KeptApart([d] + ds, out, pending, false)
  {
    assert ([d] + ds)[1..] == ds;
    SignalTail([d] + ds);
    Reassociate(pending, [d], ModelOutput(ds));
  }

  /** Model output and transport activity of a filtered stream, kept apart. */
  lemma {:induction false} FilterKeeps(ds: seq<Delta>, pending: seq<Delta>, committed: bool)
    requires AllModel(pending) && (committed ==> pending == [])
    ensures KeptApart(ds, Filtered(ds, pending, committed), pending, committed)
    decreases |ds|
  {
    if ds != [] {
      var d, rest := ds[0], ds[1..];
      assert ds == [d] + rest;
      if d.Transport? || committed {
        FilterKeeps(rest, pending, committed);
        KeptPassing(d, rest, Filtered(rest, pending, committed), pending, committed);
      } else if Signals(d) {
        FilterKeeps(rest, [], true);
        KeptCommitting(d, rest, Filtered(rest, [], true), pending);
      } else {
        FilterKeeps(rest, pending + [d], false);
        KeptHolding(d, rest, Filtered(rest, pending + [d], false), pending);
      }
    }
  }

  /**
   A stream with a completion signal keeps all its model deltas, in order, and its own end;
   a stream without one yields no model delta and ends in an error.
   */
  lemma FilterCommitsOrHolds(s: Stream)
    ensures TransportOnly(NonEmpty(s).deltas) == TransportOnly(s.deltas)
    ensures HasSignal(s.deltas) ==>
              ModelOutput(NonEmpty(s).deltas) == ModelOutput(s.deltas) && NonEmpty(s).error == s.error
    ensures !HasSignal(s.deltas) ==>
              ModelOutput(NonEmpty(s).deltas) == []
              && NonEmpty(s).error == if s.error.Some? then s.error else Some(EMPTY_COMPLETION)
  {
    FilterKeeps(s.deltas, [], false);
  }

  /** Up to the first signal, no transport activity comes after a model delta. */
  predicate TransportLeads(ds: seq<Delta>, held: bool)
    decreases |ds|
  {
    if ds == [] || Signals(ds[0]) then true
    else if ds[0].Transport? then !held && TransportLeads(ds[1..], held)
    else TransportLeads(ds[1..], true)
  }

  /**
   The filter is the identity on a signalled stream exactly when no transport activity
   arrives between a held-back delta and the signal; otherwise it overtakes that delta.
   */
  lemma {:induction false} FilterIdentityIff(ds: seq<Delta>, pending: seq<Delta>)
    requires HasSignal(ds) && AllModel(pending)
    ensures Filtered(ds, pending, false) == pending + ds <==> TransportLeads(ds, pending != [])
    decreases |ds|
  {
    SignalTail(ds);
    var d, rest := ds[0], ds[1..];
    assert ds == [d] + rest;
    if Signals(d) {
      FilterCommitted(rest);
      Reassociate(pending, [d], rest);
    } else if d.Transport? {
      FilterIdentityIff(rest, pending);
      TransportOvertakes(d, rest, pending, Filtered(rest, pending, false));
    } else {
      FilterIdentityIff(rest, pending + [d]);
      Reassociate(pending, [d], rest);
      assert pending + [d] != [];
    }
  }

  lemma FilterIsIdentityIff(s: Stream)
    requires HasSignal(s.deltas)
    ensures NonEmpty(s) == s <==> TransportLeads(s.deltas, false)
  {
    FilterIdentityIff(s.deltas, []);
    assert [] + s.deltas == s.deltas;
  }

  /** A heartbeat after a held-back delta overtakes it. */
  lemma HeartbeatOvertakes(held: Delta, signal: Delta)
    requires held.Model? && !Signals(held) && Signals(signal)
    ensures Filtered([held, Transport, signal], [], false) == [Transport, held, signal]
  {
    var ds := [held, Transport, signal];
    assert ds[1..] == [Transport, signal] && ds[1..][1..] == [signal] && [signal][1..] == [];
    assert Filtered([signal], [held], false) == [held] + [signal] + Filtered([], [], true);
    assert [] + [held] == [held];
  }

  lemma TransportOvertakes(d: Delta, rest: seq<Delta>, pending: seq<Delta>, out: seq<Delta>)
    requires d.Transport? && AllModel(pending)
    ensures [d] + out == pending + ([d] + rest) <==> pending == [] && out == pending + rest
  {
    if pending == [] {
      assert pending + ([d] + rest) == [d] + rest && pending + rest == rest;
      assert ([d] + out)[1..] == out && ([d] + rest)[1..] == rest;
    } else {
      assert (pending + ([d] + rest))[0] == pending[0] && pending[0] in pending;
      assert ([d] + out)[0] == d;
    }
  }

  lemma {:induction false} FilterCommitted(ds: seq<Delta>)
    ensures Filtered(ds, [], true) == ds
  {
    if ds != [] {
      FilterCommitted(ds[1..]);
    }
  }

  // ---- The chain ----

  datatype Entry = Entry(stream: Stream, triggers: Option<seq<Trigger>>, provider: string)

  /** What an entry delivers to the chain: filtered unless the caller manages empty completions. */
  function Served(e: Entry, managed: bool): Stream {
    if managed then e.stream else NonEmpty(e.stream)
  }

  function Stamp(d: Delta, provider: string): Delta {
    if provider != "" && d.Model? then d.(provider := provider) else d
  }

  function StampAll(ds: seq<Delta>, provider: string): seq<Delta> {
    seq(|ds|, i requires 0 <= i < |ds| => Stamp(ds[i], provider))
  }

  /** What the consumer sees, how it ends, and where the chain's cursors stand. */
  datatype Outcome = Outcome(deltas: seq<Delta>, error: Option<Error>, start: nat, serving: nat)

  function YieldsModel(ds: seq<Delta>): bool { exists d :: d in ds && d.Model? }

  /** Entry `k` gives way to the next one. */
  predicate GivesWay(entries: seq<Entry>, managed: bool, k: nat)
    requires k < |entries|
  {
    var served := Served(entries[k], managed);
    && served.error.Some? && !YieldsModel(served.deltas)
    && k < |entries| - 1 && Falls(entries[k].triggers, served.error.value)
  }

  function StreamFrom(entries: seq<Entry>, managed: bool, start: nat, serving: nat, idx: nat): Outcome
    requires idx <= |entries|
    decreases |entries| - idx
  {
    if idx == |entries| then Outcome([], Some(EXHAUSTED), start, serving)
    else
      var start' := if managed then idx else start;
      var out := StampAll(Served(entries[idx], managed).deltas, entries[idx].provider);
      if GivesWay(entries, managed, idx) then
        var rest := StreamFrom(entries, managed, start', idx, idx + 1);
        rest.(deltas := out + rest.deltas)
      else Outcome(out, Served(entries[idx], managed).error, start', idx)
  }

  /** The chain's own state; `entries` below are its entries with what their clients stream
      during one call. */
  class LLMFallbackChain {
    const managed: bool
    var start: nat
    var serving: nat

    constructor (managed: bool)
      ensures this.managed == managed && start == 0 && serving == 0
    {
      this.managed := managed;
      start, serving := 0, 0;
    }

    /** Entries before the cursor are skipped. */
    method Stream(entries: seq<Entry>) returns (seen: seq<Delta>, error: Option<Error>)
      modifies this
      ensures Outcome(seen, error, start, serving)
           == StreamFrom(entries, managed, old(start), old(serving), Min(old(start), |entries|))
      ensures old(start) >= |entries| ==>
                seen == [] && error == Some(EXHAUSTED) && start == old(start) && serving == old(serving)
    {
      seen := [];
      var idx: nat := Min(start, |entries|);
      ghost var goal := StreamFrom(entries, managed, start, serving, idx);
      while idx < |entries|
        invariant idx <= |entries|
        invariant var rest := StreamFrom(entries, managed, start, serving, idx);
                  goal == rest.(deltas := seen + rest.deltas)
      {
        serving := idx;
        if managed {
          start := idx;
        }
        var inner := entries[idx].stream;
        if !managed {
          inner := NonEmptyStream(entries[idx].stream);
        }
        var out, yieldedAny := Forward(inner.deltas, entries[idx].provider);
        if inner.error.None? || yieldedAny || idx == |entries| - 1 || !Falls(entries[idx].triggers, inner.error.value) {
          return seen + out, inner.error;
        }
        Reassociate(seen, out, StreamFrom(entries, managed, start, serving, idx + 1).deltas);
        seen := seen + out;
        idx := idx + 1;
      }
      return seen, Some(EXHAUSTED);
    }
  }

  /** Passes one entry's deltas on, stamped; model output commits the entry. */
  method Forward(deltas: seq<Delta>, provider: string) returns (out: seq<Delta>, yieldedAny: bool)
    ensures out == StampAll(deltas, provider)
    ensures yieldedAny <==> YieldsModel(deltas)
  {
    out, yieldedAny := [], false;
    for n := 0 to |deltas|
      invariant out == StampAll(deltas[..n], provider)
      invariant yieldedAny <==> YieldsModel(deltas[..n])
    {
      assert deltas[..n + 1] == deltas[..n] + [deltas[n]];
      out := out + [Stamp(deltas[n], provider)];
      if deltas[n].Model? {
        yieldedAny := true;
      }
    }
    assert deltas[..|deltas|] == deltas;
  }

  // ---- What the consumer is given ----

  /** A delta as the consumer gets it: only the provider of model output is replaced, by a non-empty one. */
  predicate PassedOn(own: Delta, seen: Delta, provider: string) {
    if own.Transport? then seen.Transport?
    else seen == Model(own.body, own.signal, if provider != "" then provider else own.provider)
  }

  predicate AllPassedOn(own: seq<Delta>, seen: seq<Delta>, provider: string) {
    |seen| == |own| && forall i :: 0 <= i < |own| ==> PassedOn(own[i], seen[i], provider)
  }

  lemma StampPassesOn(ds: seq<Delta>, provider: string)
    ensures AllPassedOn(ds, StampAll(ds, provider), provider)
  {}

  lemma {:induction false} ModelPassedOn(own: seq<Delta>, seen: seq<Delta>, provider: string)
    requires AllPassedOn(own, seen, provider)
    ensures AllPassedOn(ModelOutput(own), ModelOutput(seen), provider)
    decreases |own|
  {
    if own != [] {
      assert PassedOn(own[0], seen[0], provider);
      ModelPassedOn(own[1..], seen[1..], provider);
    }
  }

  lemma {:induction false} QuietIsTransport(ds: seq<Delta>)
    requires forall i :: 0 <= i < |ds| ==> ds[i].Transport?
    ensures ModelOutput(ds) == []
  {
    if ds != [] {
      QuietIsTransport(ds[1..]);
    }
  }

  /** Entry failed without model output, and one of its triggers, or none set, matches the error. */
  predicate FailedSilently(e: Entry, managed: bool) {
    var served := Served(e, managed);
    && (forall i :: 0 <= i < |served.deltas| ==> served.deltas[i].Transport?)
    && served.error.Some?
    && (e.triggers.None? || exists t :: t in e.triggers.value && TriggerMatches(t, served.error.value))
  }

  /** What the consumer gets of the entry's own stream: all of it when the caller manages empty
      completions or the stream has a signal, and no model output otherwise. */
  predicate HeardFrom(e: Entry, managed: bool, outcome: Outcome) {
    if managed || HasSignal(e.stream.deltas) then
      && AllPassedOn(ModelOutput(e.stream.deltas), ModelOutput(outcome.deltas), e.provider)
      && outcome.error == e.stream.error
    else
      && ModelOutput(outcome.deltas) == []
      && outcome.error == if e.stream.error.Some? then e.stream.error else Some(EMPTY_COMPLETION)
  }

  lemma HeardAlone(e: Entry, managed: bool, outcome: Outcome)
    requires outcome.deltas == StampAll(Served(e, managed).deltas, e.provider)
    requires outcome.error == Served(e, managed).error
    ensures HeardFrom(e, managed, outcome)
  {
    StampPassesOn(Served(e, managed).deltas, e.provider);
    ModelPassedOn(Served(e, managed).deltas, outcome.deltas, e.provider);
    FilterCommitsOrHolds(e.stream);
  }

  /** How many deltas the entries from `idx` to before `k` deliver. */
  function Delivered(entries: seq<Entry>, managed: bool, idx: nat, k: nat): nat
    requires idx <= k <= |entries|
    decreases k - idx
  {
    if idx == k then 0 else |Served(entries[idx], managed).deltas| + Delivered(entries, managed, idx + 1, k)
  }

  /** What reaches the consumer: `quiet` transport deltas, then the deltas of entry `k`, each in its place. */
  predicate Ordered(e: Entry, managed: bool, quiet: nat, deltas: seq<Delta>) {
    && quiet <= |deltas| && (forall i :: 0 <= i < quiet ==> deltas[i].Transport?)
    && AllPassedOn(Served(e, managed).deltas, deltas[quiet..], e.provider)
  }

  lemma SilentBefore(silent: Entry, e: Entry, managed: bool, quiet: nat, rest: Outcome)
    requires FailedSilently(silent, managed) && HeardFrom(e, managed, rest) && Ordered(e, managed, quiet, rest.deltas)
    ensures var out := StampAll(Served(silent, managed).deltas, silent.provider);
            && HeardFrom(e, managed, rest.(deltas := out + rest.deltas))
            && Ordered(e, managed, |Served(silent, managed).deltas| + quiet, out + rest.deltas)
  {
    var out := StampAll(Served(silent, managed).deltas, silent.provider);
    StampPassesOn(Served(silent, managed).deltas, silent.provider);
    QuietIsTransport(out);
    ModelOutputConcat(out, rest.deltas);
    assert (out + rest.deltas)[|out| + quiet..] == rest.deltas[quiet..];
  }

  lemma GivesWayIff(entries: seq<Entry>, managed: bool, k: nat)
    requires k < |entries|
    ensures GivesWay(entries, managed, k) <==> k < |entries| - 1 && FailedSilently(entries[k], managed)
  {
    var served := Served(entries[k], managed);
    if YieldsModel(served.deltas) {
      var d :| d in served.deltas && d.Model?;
    } else {
      forall i | 0 <= i < |served.deltas| ensures served.deltas[i].Transport? {
        assert served.deltas[i] in served.deltas;
      }
    }
  }

  /**
   For every entry list and failure pattern there is one entry that is heard: every earlier
   entry from the cursor on failed before emitting model output, with an error one of its
   triggers matches, and it did not or had none after it. The model deltas the consumer sees
   are that entry's, body and signal as they were and in order, an error that reaches the
   consumer is its own, and transport deltas keep their places.
   */
  lemma {:induction false} OneEntryServes(entries: seq<Entry>, managed: bool, start: nat, serving: nat, idx: nat)
    returns (k: nat)
    requires idx < |entries|
    ensures idx <= k < |entries|
    ensures forall i :: idx <= i < k ==> FailedSilently(entries[i], managed)
    ensures k == |entries| - 1 || !FailedSilently(entries[k], managed)
    ensures var outcome := StreamFrom(entries, managed, start, serving, idx);
            && HeardFrom(entries[k], managed, outcome)
            && Ordered(entries[k], managed, Delivered(entries, managed, idx, k), outcome.deltas)
            && outcome.serving == k && outcome.start == (if managed then k else start)
    decreases |entries| - idx
  {
    GivesWayIff(entries, managed, idx);
    if GivesWay(entries, managed, idx) {
      var start' := if managed then idx else start;
      k := OneEntryServes(entries, managed, start', idx, idx + 1);
      SilentBefore(entries[idx], entries[k], managed, Delivered(entries, managed, idx + 1, k),
                   StreamFrom(entries, managed, start', idx, idx + 1));
    } else {
      k := idx;
      var outcome := StreamFrom(entries, managed, start, serving, idx);
      HeardAlone(entries[k], managed, outcome);
      StampPassesOn(Served(entries[k], managed).deltas, entries[k].provider);
      assert outcome.deltas[0..] == outcome.deltas;
    }
  }

  // ---- Triggers ----

  const TIMEOUT_PHRASES := ["timeout", "timed out"]
  const RATE_PHRASES := ["rate limit", "rate_limit", "quota", "too many requests"]
  const SERVER_PHRASES :=
    ["internal server error", "bad gateway", "service unavailable", "gateway timeout", "503", "502", "500", "504"]

  /** Some phrase stands somewhere in the text. */
  ghost predicate Mentions(text: string, phrases: seq<string>) {
    exists i, before, after :: 0 <= i < |phrases| && text == before + phrases[i] + after
  }

  lemma ContainsIff(text: string, part: string)
    ensures Contains(text, part) <==> exists before, after :: text == before + part + after
  {
    if Contains(text, part) {
      var i: nat :| i <= |text| && OccursAt(text, part, i);
      assert text == text[..i] + part + text[i + |part|..];
    }
    if exists before, after :: text == before + part + after {
      var before, after :| text == before + part + after;
      assert OccursAt(text, part, |before|);
    }
  }

  lemma MentionsIff(text: string, phrases: seq<string>)
    ensures Mentions(text, phrases) <==> exists i :: 0 <= i < |phrases| && Contains(text, phrases[i])
  {
    if Mentions(text, phrases) {
      var i, before, after :| 0 <= i < |phrases| && text == before + phrases[i] + after;
      ContainsIff(text, phrases[i]);
    }
    if exists i :: 0 <= i < |phrases| && Contains(text, phrases[i]) {
      var i :| 0 <= i < |phrases| && Contains(text, phrases[i]);
      ContainsIff(text, phrases[i]);
      var before, after :| text == before + phrases[i] + after;
    }
  }

  /** Exactly which errors a trigger matches: by class, by status, or by a phrase anywhere in the text. */
  lemma TriggerMatchesIff(t: Trigger, e: Error)
    ensures TriggerMatches(t, e) <==>
            match t
            case AnyError => true
            case EmptyCompletion => e.isEmptyCompletion
            case Timeout => e.isTimeout || Mentions(e.name, ["timeout"]) || Mentions(e.message, TIMEOUT_PHRASES)
            case RateLimit => e.status == Some(429) || Mentions(e.message, RATE_PHRASES)
            case ServerError => (e.status.Some? && e.status.value / 100 == 5) || Mentions(e.message, SERVER_PHRASES)
  {
    MentionsIff(e.name, ["timeout"]);
    MentionsIff(e.message, TIMEOUT_PHRASES);
    MentionsIff(e.message, RATE_PHRASES);
    MentionsIff(e.message, SERVER_PHRASES);
    assert TIMEOUT_PHRASES[0] == "timeout" && TIMEOUT_PHRASES[1] == "timed out";
    assert RATE_PHRASES[0] == "rate limit" && RATE_PHRASES[1] == "rate_limit";
    assert RATE_PHRASES[2] == "quota" && RATE_PHRASES[3] == "too many requests";
    assert SERVER_PHRASES[0] == "internal server error" && SERVER_PHRASES[1] == "bad gateway";
    assert SERVER_PHRASES[2] == "service unavailable" && SERVER_PHRASES[3] == "gateway timeout";
    assert SERVER_PHRASES[4] == "503" && SERVER_PHRASES[5] == "502";
    assert SERVER_PHRASES[6] == "500" && SERVER_PHRASES[7] == "504";
  }
}
