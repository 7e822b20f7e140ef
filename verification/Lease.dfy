/**
 The lease that returns a concurrency slot once its block has exited and every abandoned
 operation it tracks has settled.
 */
module Leases {
  /** `releases` counts calls of the release callback. */
  datatype State = State(pending: int, released: bool, releases: nat)

  const OPEN := State(1, false, 0)

  /** After release, a late operation is not tracked; the flag says whether it is. */
  function Tracked(s: State): (State, bool) {
    if s.released then (s, false) else (s.(pending := s.pending + 1), true)
  }

  function Settled(s: State): State {
    var s' := s.(pending := s.pending - 1);
    if s'.pending == 0 && !s'.released then s'.(released := true, releases := s'.releases + 1) else s'
  }

  class Lease {
    var pending: int
    var released: bool
    var releases: nat

    ghost function View(): State
      reads this
    {
      State(pending, released, releases)
    }

    constructor ()
      ensures View() == OPEN
    {
      pending, released, releases := 1, false, 0;
    }

    /** Registers `Settle` as the operation's completion callback when it returns true. */
    method Track() returns (registered: bool)
      modifies this
      ensures (View(), registered) == Tracked(old(View()))
    {
      if released {
        return false;
      }
      pending := pending + 1;
      return true;
    }

    method Settle()
      modifies this
      ensures View() == Settled(old(View()))
    {
      pending := pending - 1;
      if pending == 0 && !released {
        released := true;
        releases := releases + 1;
      }
    }
  }

  // ---- Interleavings ----

  /** `Bounded`: a bounded wait ends; `done` tells whether its operation had finished, `hold`
      whether it is provider I/O. `Complete`: a callback of an abandoned operation runs. `Exit`: the
      block exits. */
  datatype Event = Bounded(task: int, done: bool, hold: bool) | Complete(task: int) | Exit

  /** The lease, whether the block has exited, and the callbacks due; an operation abandoned twice
      has two. */
  datatype World = World(lease: State, exited: bool, due: multiset<int>)

  const START := World(OPEN, false, multiset{})

  /** The block exits once; a callback runs once for each time it was registered. */
  predicate Possible(w: World, e: Event) {
    match e
    case Bounded(_, _, _) => true
    case Complete(task) => task in w.due
    case Exit => !w.exited
  }

  function Step(w: World, e: Event): World {
    match e
    case Bounded(task, done, hold) =>
      if done || !hold then w
      else
        var tracked := Tracked(w.lease);
        w.(lease := tracked.0, due := if tracked.1 then w.due + multiset{task} else w.due)
    case Complete(task) => w.(lease := Settled(w.lease), due := w.due - multiset{task})
    case Exit => w.(lease := Settled(w.lease), exited := true)
  }

  function Run(w: World, events: seq<Event>): World {
    if events == [] then w else Step(Run(w, events[..|events| - 1]), events[|events| - 1])
  }

  predicate AllPossible(w: World, events: seq<Event>) {
    events != [] ==>
      && AllPossible(w, events[..|events| - 1])
      && Possible(Run(w, events[..|events| - 1]), events[|events| - 1])
  }

  /** The slot has been returned exactly when the block has exited and nothing is due. */
  predicate Sound(w: World) {
    && w.lease.pending == |w.due| + (if w.exited then 0 else 1)
    && (w.lease.released <==> w.exited && w.due == multiset{})
    && w.lease.releases == (if w.lease.released then 1 else 0)
  }

  lemma StepSound(w: World, e: Event)
    requires Sound(w) && Possible(w, e)
    ensures Sound(Step(w, e))
    ensures w.lease.released ==> Step(w, e).lease.releases == w.lease.releases
  {
    if e.Complete? {
      var left := w.due - multiset{e.task};
      assert w.due == left + multiset{e.task};
      assert |w.due| == |left| + 1;
    }
  }

  /**
   Over every interleaving: the release callback has run once if the block has exited and
   every tracked operation has settled, and has not run otherwise.
   */
  lemma {:induction false} ReleasedExactlyOnce(events: seq<Event>)
    requires AllPossible(START, events)
    ensures Sound(Run(START, events))
    ensures Run(START, events).lease.releases
            == (if Run(START, events).exited && Run(START, events).due == multiset{} then 1 else 0)
  {
    if events != [] {
      var init := events[..|events| - 1];
      ReleasedExactlyOnce(init);
      StepSound(Run(START, init), events[|events| - 1]);
    }
  }

  lemma ReleasedStays(w: World, e: Event)
    requires Sound(w) && Possible(w, e) && w.lease.released
    ensures Step(w, e) == w
  {}

  /** Once returned, the slot stays returned: what comes later changes nothing. */
  lemma {:induction false} ReleaseIsFinal(events: seq<Event>, later: seq<Event>)
    requires AllPossible(START, events + later) && Run(START, events).lease.released
    ensures Run(START, events + later) == Run(START, events)
    decreases |later|
  {
    var all := events + later;
    if later == [] {
      assert all == events;
    } else {
      var init, last := later[..|later| - 1], later[|later| - 1];
      assert all[..|all| - 1] == events + init && all[|all| - 1] == last;
      ReleaseIsFinal(events, init);
      ReleasedExactlyOnce(events + init);
      ReleasedStays(Run(START, events + init), last);
    }
  }

  // ---- The same without a lease ----

  /** Whether the block has exited and which abandoned operations are still running, from the events
      alone: once it has and none is, later ones are nobody's concern. */
  datatype Open = Open(exited: bool, running: multiset<int>)

  function OpenStep(open: Open, e: Event): Open {
    match e
    case Bounded(task, done, hold) =>
      if hold && !done && !(open.exited && open.running == multiset{})
      then open.(running := open.running + multiset{task}) else open
    case Complete(task) => open.(running := open.running - multiset{task})
    case Exit => open.(exited := true)
  }

  function OpenAfter(events: seq<Event>): Open {
    if events == [] then Open(false, multiset{})
    else OpenStep(OpenAfter(events[..|events| - 1]), events[|events| - 1])
  }

  predicate Agree(w: World, open: Open) { w.due == open.running && w.exited == open.exited }

  lemma AgreeStep(w: World, open: Open, e: Event)
    requires Sound(w) && Possible(w, e) && Agree(w, open)
    ensures Agree(Step(w, e), OpenStep(open, e))
  {}

  /** The lease waits for every provider operation abandoned before the slot was returned, and for
      nothing else: it has released exactly when the block has exited and none of them is running. */
  lemma {:induction false} WaitsForEveryOperation(events: seq<Event>)
    requires AllPossible(START, events)
    ensures var w, open := Run(START, events), OpenAfter(events);
            && w.due == open.running && w.exited == open.exited
            && w.lease.releases == (if open.exited && open.running == multiset{} then 1 else 0)
  {
    ReleasedExactlyOnce(events);
    if events != [] {
      var init := events[..|events| - 1];
      WaitsForEveryOperation(init);
      ReleasedExactlyOnce(init);
      AgreeStep(Run(START, init), OpenAfter(init), events[|events| - 1]);
    }
  }
}
