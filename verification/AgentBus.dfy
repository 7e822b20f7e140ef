/**
 The agent bus as the mutable object it is: each method below runs from one suspension
 point to the next and is proved to take exactly the step of the same name, so every fact
 about runs of steps is a fact about sequences of these calls.
 */
module AgentBuses {
  import opened Common
  import opened SpawnGuards
  import opened SessionBus

  /** Aborting each idle job of a list, in order; jobs that are not idle are left alone. */
  function AbortAllIdle(b: Bus, ids: seq<JobId>): Bus
    decreases |ids|
  {
    if ids == [] then b
    else if Enabled(b, AbortIdle(ids[0])) then AbortAllIdle(Apply(b, AbortIdle(ids[0])), ids[1..])
    else AbortAllIdle(b, ids[1..])
  }

  lemma AbortIdleFrame(b: Bus, j: JobId)
    requires Consistent(b) && Enabled(b, AbortIdle(j))
    ensures Narrowed(b, Apply(b, AbortIdle(j)), [j])
  {
    var b' := Apply(b, AbortIdle(j));
    forall s | s in b.sessions
      ensures Fewer(b'.sessions[s].queue, b.sessions[s].queue, [j])
    {
      WithoutMembers(b.sessions[s].queue, j);
    }
  }

  /** Everything in `small` is in `large`, and nothing of `ids` is. */
  ghost predicate Fewer(small: seq<JobId>, large: seq<JobId>, ids: seq<JobId>) {
    forall x :: x in small ==> x in large && x !in ids
  }

  /** `b'` is reached from `b` by aborting jobs of `ids` only, and parks none of them. */
  ghost predicate Narrowed(b: Bus, b': Bus, ids: seq<JobId>) {
    && b'.sessions.Keys == b.sessions.Keys
    && (forall s :: s in b.sessions ==> Fewer(b'.sessions[s].queue, b.sessions[s].queue, ids))
    && (forall j :: j in b.jobs && j !in ids ==> j in b'.jobs && b'.jobs[j] == b.jobs[j])
  }

  lemma NotIdleNotQueued(b: Bus, j: JobId)
    requires Consistent(b) && !Enabled(b, AbortIdle(j))
    ensures forall s :: s in b.sessions ==> j !in b.sessions[s].queue
  {
    NotInAnyQueue(b, j);
  }

  lemma {:induction false} AbortAllIdleFrame(b: Bus, ids: seq<JobId>)
    requires Consistent(b)
    ensures Consistent(AbortAllIdle(b, ids))
    ensures Narrowed(b, AbortAllIdle(b, ids), ids)
    decreases |ids|
  {
    if ids != [] {
      var j, rest := ids[0], ids[1..];
      assert ids == [j] + rest;
      if Enabled(b, AbortIdle(j)) {
        StepConsistent(b, AbortIdle(j));
        AbortIdleFrame(b, j);
        AbortAllIdleFrame(Apply(b, AbortIdle(j)), rest);
        NarrowedTrans(b, Apply(b, AbortIdle(j)), AbortAllIdle(b, ids), j, rest);
      } else {
        NotIdleNotQueued(b, j);
        AbortAllIdleFrame(b, rest);
        NarrowedTrans(b, b, AbortAllIdle(b, ids), j, rest);
      }
    }
  }

  lemma NarrowedTrans(b: Bus, mid: Bus, b': Bus, j: JobId, rest: seq<JobId>)
    requires Narrowed(b, mid, [j]) && Narrowed(mid, b', rest)
    ensures Narrowed(b, b', [j] + rest)
  {
    forall s | s in b.sessions
      ensures Fewer(b'.sessions[s].queue, b.sessions[s].queue, [j] + rest)
    {
      assert Fewer(b'.sessions[s].queue, mid.sessions[s].queue, rest);
      assert Fewer(mid.sessions[s].queue, b.sessions[s].queue, [j]);
    }
  }

  // ---- A cancelled round stays cancelled ----

  ghost predicate Nowhere(b: Bus, j: JobId) {
    j in b.jobs && forall s :: s in b.sessions ==> j !in b.sessions[s].queue
  }

  /** A step did not dispatch `j`: it neither sent it to the gate nor marked it submitted. */
  predicate NotDispatched(b: Bus, b': Bus, j: JobId)
    requires j in b.jobs
  {
    && j in b'.jobs
    && (b'.jobs[j].phase == AtGate ==> b.jobs[j].phase == AtGate)
    && (b'.jobs[j].status == Submitted ==> b.jobs[j].status == Submitted)
  }

  lemma SubmitSpares(b: Bus, s: SessionId, estimate: nat, outcome: DispatchOutcome, j: JobId)
    requires s in b.sessions && b.counter + 1 !in b.jobs && Nowhere(b, j)
    ensures var b' := SubmitTask(b, s, estimate, outcome); Nowhere(b', j) && NotDispatched(b, b', j)
  {
    SubmitShape(b, s, estimate, outcome);
  }

  lemma DrainSpares(b: Bus, s: SessionId, outcome: DispatchOutcome, j: JobId)
    requires Consistent(b) && Enabled(b, Drain(s, outcome)) && Nowhere(b, j)
    ensures var b' := Apply(b, Drain(s, outcome)); Nowhere(b', j) && NotDispatched(b, b', j)
  {
    if b.sessions[s].queue != [] {
      DrainTakesHead(b, s, outcome);
      HeadDispatchSpares(b, s, outcome, j);
    }
  }

  lemma HeadDispatchSpares(b: Bus, s: SessionId, outcome: DispatchOutcome, j: JobId)
    requires s in b.sessions && b.sessions[s].queue != [] && b.sessions[s].owed > 0 && Nowhere(b, j)
    ensures var b' := Dispatch(Popped(b, s), s, b.sessions[s].queue[0], outcome);
            Nowhere(b', j) && NotDispatched(b, b', j)
  {
    assert b.sessions[s].queue[0] in b.sessions[s].queue;
    forall x | x in b.sessions[s].queue[1..] ensures x in b.sessions[s].queue {}
  }

  lemma AbortSpares(b: Bus, x: JobId, j: JobId)
    requires Enabled(b, AbortIdle(x)) && Nowhere(b, j)
    ensures var b' := Apply(b, AbortIdle(x)); Nowhere(b', j) && NotDispatched(b, b', j)
  {
    var b' := Apply(b, AbortIdle(x));
    forall s | s in b'.sessions ensures j !in b'.sessions[s].queue {
      WithoutMembers(b.sessions[s].queue, x);
    }
  }

  /** A registered job that is parked nowhere is never parked or dispatched again. */
  lemma StepSpares(b: Bus, step: Step, j: JobId)
    requires Consistent(b) && Enabled(b, step) && Nowhere(b, j)
    ensures Nowhere(Apply(b, step), j) && NotDispatched(b, Apply(b, step), j)
  {
    FreshIsNowhere(b);
    match step
    case Submit(s, estimate, outcome) => SubmitSpares(b, s, estimate, outcome, j);
    case Drain(s, outcome) => DrainSpares(b, s, outcome, j);
    case AbortIdle(x) => AbortSpares(b, x, j);
    case _ => OtherStepSpares(b, step, j);
  }

  lemma OtherStepSpares(b: Bus, step: Step, j: JobId)
    requires Enabled(b, step) && Nowhere(b, j) && b.counter + 1 !in b.jobs
    requires !step.Submit? && !step.Drain? && !step.AbortIdle?
    ensures Nowhere(Apply(b, step), j) && NotDispatched(b, Apply(b, step), j)
  {}

  /** No step of the run dispatches `j`. */
  ghost predicate NeverDispatched(b: Bus, steps: seq<Step>, j: JobId)
    requires j in b.jobs
    decreases |steps|
  {
    steps == [] || !Enabled(b, steps[0])
    || (NotDispatched(b, Apply(b, steps[0]), j) && NeverDispatched(Apply(b, steps[0]), steps[1..], j))
  }

  lemma {:induction false} RunSpares(rule: Rule, b: Bus, steps: seq<Step>, final: Bus, j: JobId)
    requires Consistent(b) && Executes(rule, b, steps, final) && Nowhere(b, j)
    ensures Nowhere(final, j) && NeverDispatched(b, steps, j)
    decreases |steps|
  {
    if steps != [] {
      StepConsistent(b, steps[0]);
      StepSpares(b, steps[0], j);
      RunSpares(rule, Apply(b, steps[0]), steps[1..], final, j);
    }
  }

  lemma {:induction false} AbortAllKeepsJobs(b: Bus, ids: seq<JobId>)
    ensures b.jobs.Keys <= AbortAllIdle(b, ids).jobs.Keys
    decreases |ids|
  {
    if ids != [] {
      AbortAllKeepsJobs(if Enabled(b, AbortIdle(ids[0])) then Apply(b, AbortIdle(ids[0])) else b, ids[1..]);
    }
  }

  /**
   Cancelling a round clears its parked jobs first, so whatever runs while the running ones
   are cancelled and afterwards, drains included, no job of the round is parked or
   dispatched again.
   */
  lemma DrainAfterCancelSparesRound(b: Bus, ids: seq<JobId>, steps: seq<Step>, final: Bus, j: JobId)
    requires Consistent(b) && j in ids && j in b.jobs
    requires Executes(AnyStep, AbortAllIdle(b, ids), steps, final)
    ensures j in AbortAllIdle(b, ids).jobs && NeverDispatched(AbortAllIdle(b, ids), steps, j)
    ensures forall s :: s in final.sessions ==> j !in final.sessions[s].queue
  {
    var b1 := AbortAllIdle(b, ids);
    AbortAllIdleFrame(b, ids);
    AbortAllKeepsJobs(b, ids);
    forall s | s in b1.sessions ensures j !in b1.sessions[s].queue {
      assert Fewer(b1.sessions[s].queue, b.sessions[s].queue, ids);
    }
    RunSpares(AnyStep, b1, steps, final, j);
  }

  /** Why a submit is refused. */
  datatype SubmitError = DepthLimitExceeded | Refused(error: SpawnError) | DispatchFailed

  class AgentBus {
    var jobs: map<JobId, Job>
    var sessions: map<SessionId, Session>
    var counter: nat
    var collected: set<JobId>
    const guard: SpawnGuard

    ghost function View(): Bus
      reads this, guard
    {
      Bus(jobs, sessions, counter, guard.View(), collected)
    }

    constructor (guard: SpawnGuard)
      ensures this.guard == guard
      ensures View() == Bus(map[], map[], 0, guard.View(), {})
    {
      jobs := map[];
      sessions := map[];
      counter := 0;
      collected := {};
      this.guard := guard;
    }

    method CreateSession(s: SessionId)
      requires s !in sessions
      modifies this
      ensures View() == Apply(old(View()), SessionBus.CreateSession(s))
    {
      sessions := sessions[s := Session(None, [], 0, [], [])];
    }

    /** `outcome` is how the trimmer and the event loop behave should this call dispatch. */
    method SubmitTaskToSession(s: SessionId, estimate: nat, outcome: DispatchOutcome)
      returns (answer: Result<JobId, SubmitError>)
      requires s in sessions
      modifies this, guard
      ensures View() == Apply(old(View()), Submit(s, estimate, outcome))
      ensures var checked := old(guard.View()).PreCheck(old(counter) + 1, 1, estimate);
              answer == if checked.Err? then Err(Refused(checked.error))
                        else if !Busy(old(View()), s) && outcome != Started then Err(DispatchFailed)
                        else Ok(old(counter) + 1)
    {
      counter := counter + 1;
      var j := counter;
      var error := guard.PreCheck(j, 1, estimate);
      if error.Some? {
        return Err(Refused(error.value));
      }
      var session := sessions[s];
      var busy := false;
      if session.current.Some? {
        var current := session.current.value;
        if current in jobs && (jobs[current].status == Submitted || jobs[current].status == Running) {
          busy := true;
        }
      }
      if busy {
        jobs := jobs[j := Job(Some(s), Queued, NoTask, false)];
        sessions := sessions[s := session.(queue := session.queue + [j])];
      } else {
        DispatchSessionTask(s, j, outcome);
        if outcome != Started {
          return Err(DispatchFailed);
        }
      }
      return Ok(j);
    }

    method DispatchSessionTask(s: SessionId, j: JobId, outcome: DispatchOutcome)
      requires s in sessions
      modifies this, guard
      ensures View() == Dispatch(old(View()), s, j, outcome)
    {
      if outcome == TrimFails {
        guard.Release(j);
        return;
      }
      var existing := j in jobs;
      if outcome == CreateFails {
        if existing {
          jobs := jobs[j := jobs[j].(status := Submitted)];
        }
        sessions := sessions[s := sessions[s].(current := None)];
        guard.Release(j);
        return;
      }
      jobs := jobs[j := Job(Some(s), Submitted, AtGate, false)];
      sessions := sessions[s := sessions[s].(current := Some(j))];
    }

    /** A one-shot job. The tighter of the two depth limits is checked before an id is taken;
        `created` tells whether its task could be created. */
    method SubmitJob(depth: nat, maxDepth: int, estimate: nat, created: bool)
        returns (answer: Result<JobId, SubmitError>)
      modifies this, guard
      ensures depth >= Min(maxDepth, guard.maxDepth) ==> answer == Err(DepthLimitExceeded) && View() == old(View())
      ensures depth < Min(maxDepth, guard.maxDepth) ==>
                && View() == Apply(old(View()), SubmitOneShot(depth, estimate, created))
                && var checked := old(guard.View()).PreCheck(old(counter) + 1, depth + 1, estimate);
                   answer == if checked.Err? then Err(Refused(checked.error))
                             else if created then Ok(old(counter) + 1) else Err(DispatchFailed)
    {
      if depth >= Min(maxDepth, guard.maxDepth) {
        return Err(DepthLimitExceeded);
      }
      counter := counter + 1;
      var j := counter;
      var error := guard.PreCheck(j, depth + 1, estimate);
      if error.Some? {
        return Err(Refused(error.value));
      }
      jobs := jobs[j := Job(None, Submitted, AtGate, false)];
      if !created {
        assert jobs - {j} == old(jobs) - {j};
        jobs := jobs - {j};
        guard.Release(j);
        return Err(DispatchFailed);
      }
      return Ok(j);
    }

    method PassGate(j: JobId)
      requires Enabled(View(), SessionBus.PassGate(j))
      modifies this, guard
      ensures View() == Apply(old(View()), SessionBus.PassGate(j))
    {
      guard.AcquireSlot(j);
      var job := jobs[j];
      jobs := jobs[j := job.(status := Running, phase := InRun)];
      if job.session.Some? && job.session.value in sessions {
        var session := sessions[job.session.value];
        sessions := sessions[job.session.value := session.(started := session.started + [j])];
      }
    }

    method Publish(j: JobId, result: Status)
      requires Enabled(View(), SessionBus.Publish(j, result))
      modifies this
      ensures View() == Apply(old(View()), SessionBus.Publish(j, result))
    {
      var job := jobs[j].(status := result, phase := Published);
      if job.session.Some? {
        var session := sessions[job.session.value];
        job := job.(posted := true);
        sessions := sessions[job.session.value := session.(mailbox := session.mailbox + [j])];
      }
      jobs := jobs[j := job];
    }

    method Finalize(j: JobId)
      requires Enabled(View(), SessionBus.Finalize(j))
      modifies this, guard
      ensures View() == Apply(old(View()), SessionBus.Finalize(j))
    {
      guard.Release(j);
      var s := jobs[j].session;
      jobs := jobs[j := jobs[j].(phase := Ended)];
      if s.Some? {
        var session := sessions[s.value];
        if session.current == Some(j) {
          session := session.(current := None);
        }
        sessions := sessions[s.value := session.(owed := session.owed + 1)];
      }
    }

    method Drain(s: SessionId, outcome: DispatchOutcome)
      requires Enabled(View(), SessionBus.Drain(s, outcome))
      modifies this, guard
      ensures View() == Apply(old(View()), SessionBus.Drain(s, outcome))
    {
      sessions := sessions[s := sessions[s].(owed := sessions[s].owed - 1)];
      ghost var start := View();
      while sessions[s].queue != []
        invariant s in sessions
        invariant DrainQueue(start, s, outcome) == DrainQueue(View(), s, outcome)
        decreases if s in sessions then |sessions[s].queue| else 0
      {
        var next := sessions[s].queue[0];
        sessions := sessions[s := sessions[s].(queue := sessions[s].queue[1..])];
        if !(next in jobs && jobs[next].status == Aborted) {
          DispatchSessionTask(s, next, outcome);
          return;
        }
      }
    }

    /** Finds the one session that has `j` parked, takes it out and releases its reservation. */
    method PurgeQueuedJob(j: JobId)
      requires Consistent(View())
      modifies this`sessions, guard
      ensures sessions == PurgeQueued(old(View()), j).sessions
      ensures guard.View() == old(guard.View()) || guard.View() == old(guard.View()).Release(j)
    {
      ghost var before := View();
      var unseen := sessions.Keys;
      while unseen != {}
        invariant View() == before && unseen <= sessions.Keys
        invariant forall s :: s in sessions && s !in unseen ==> j !in sessions[s].queue
        decreases unseen
      {
        var s :| s in unseen;
        unseen := unseen - {s};
        var kept, removed := KeepOthers(sessions[s].queue, j);
        if removed {
          assert SessionOk(before, s) && QueuedHere(before, s, j);
          PurgeIsLocal(before, j);
          sessions := sessions[s := sessions[s].(queue := kept)];
          guard.Release(j);
          return;
        }
      }
      forall s | s in sessions
        ensures Without(sessions[s].queue, j) == sessions[s].queue
      {
        WithoutAbsent(sessions[s].queue, j);
      }
    }

    method MarkJobAborted(j: JobId)
      requires j in jobs
      modifies this`jobs, guard
      ensures View() == SessionBus.MarkJobAborted(old(View()), j)
    {
      guard.Release(j);
      if Terminal(jobs[j].status) {
        return;
      }
      jobs := jobs[j := jobs[j].(status := Aborted)];
    }

    /** Abort of a parked job: the entry leaves the queue, the reservation comes back once. */
    method AbortIdle(j: JobId)
      requires Consistent(View()) && Enabled(View(), SessionBus.AbortIdle(j))
      modifies this, guard
      ensures View() == Apply(old(View()), SessionBus.AbortIdle(j))
    {
      ReleaseBalanced(guard.View(), j);
      PurgeQueuedJob(j);
      MarkJobAborted(j);
    }

    /** First pass of cancelling a round: every parked job of the round is aborted. */
    method CancelQueued(ids: seq<JobId>) returns (cancelled: nat)
      requires Consistent(View())
      modifies this, guard
      ensures View() == AbortAllIdle(old(View()), ids) && Consistent(View())
      ensures forall s :: s in sessions ==> forall j :: j in sessions[s].queue ==> j !in ids
    {
      ghost var before := View();
      AbortAllIdleFrame(before, ids);
      cancelled := 0;
      for i := 0 to |ids|
        invariant Consistent(View())
        invariant AbortAllIdle(before, ids) == AbortAllIdle(View(), ids[i..])
      {
        var j := ids[i];
        assert ids[i..] == [j] + ids[i + 1..];
        if j in jobs && !Terminal(jobs[j].status) && (jobs[j].status == Queued || jobs[j].phase == NoTask) {
          StepConsistent(View(), SessionBus.AbortIdle(j));
          AbortIdle(j);
          cancelled := cancelled + 1;
        }
      }
      assert ids[|ids|..] == [];
    }

    method Reconcile(s: SessionId)
      requires Enabled(View(), SessionBus.Reconcile(s))
      modifies this, guard
      ensures View() == Apply(old(View()), SessionBus.Reconcile(s))
    {
      var session := sessions[s];
      var j := session.current.value;
      var job := jobs[j];
      jobs := jobs[j := job.(status := if Terminal(job.status) then job.status else Aborted, posted := true)];
      if j !in session.mailbox {
        session := session.(mailbox := session.mailbox + [j]);
      }
      sessions := sessions[s := session.(current := None, owed := session.owed + 1)];
      guard.Release(j);
    }

    method PopReady(s: SessionId) returns (j: JobId)
      requires Consistent(View()) && Enabled(View(), SessionBus.PopReady(s))
      modifies this
      ensures View() == Apply(old(View()), SessionBus.PopReady(s))
      ensures j !in old(collected) && j in collected
    {
      PopReadyConsistent(View(), s);
      var session := sessions[s];
      j := session.mailbox[0];
      sessions := sessions[s := session.(mailbox := session.mailbox[1..])];
      collected := collected + {j};
    }
  }

  /** One pass over a queue: everything but `j`, in order, and whether `j` was there. */
  method KeepOthers(queue: seq<JobId>, j: JobId) returns (kept: seq<JobId>, removed: bool)
    ensures kept == Without(queue, j)
    ensures removed <==> j in queue
  {
    kept, removed := [], false;
    for i := 0 to |queue|
      invariant kept == Without(queue[..i], j)
      invariant removed <==> j in queue[..i]
    {
      assert queue[..i + 1] == queue[..i] + [queue[i]];
      WithoutAppend(queue[..i], queue[i], j);
      if queue[i] == j {
        removed := true;
      } else {
        kept := kept + [queue[i]];
      }
    }
    assert queue[..|queue|] == queue;
  }

  lemma {:induction false} WithoutAppend(q: seq<JobId>, x: JobId, j: JobId)
    ensures Without(q + [x], j) == Without(q, j) + (if x == j then [] else [x])
  {
    if q != [] {
      assert (q + [x])[1..] == q[1..] + [x];
      WithoutAppend(q[1..], x, j);
    }
  }
}
