/**
 Serial execution and ordering on the agent bus, for the callers' side of the two exact
 conditions. A run in which no submit lands inside its session's finalisation window never
 drains into a busy session; every window with a queue, and every window with two submits,
 does. A run that also has no failed dispatch and no session task cancelled at the gate
 never starts past a queue, and every abandoned queue is overtaken by the next submit.
 */
module SessionOrder {
  import opened Common
  import opened SpawnGuards
  import opened SessionBus
  import opened SessionSolo
  import opened SessionLine

  /** The job has a task that runs, may run, or has yet to leave its `finally`. */
  predicate Occupies(job: Job) {
    LiveTask(job) || (job.session.Some? && job.phase == Published)
  }

  predicate IsActive(st: Status) { st == Submitted || st == Running }

  ghost predicate Exclusive(b: Bus) {
    && (forall j :: j in b.jobs && Occupies(b.jobs[j]) ==>
                      b.jobs[j].session.value in b.sessions
                      && b.sessions[b.jobs[j].session.value].current == Some(j))
    && (forall s :: s in b.sessions ==>
                      b.sessions[s].owed <= 1 && (b.sessions[s].owed == 1 ==> b.sessions[s].current == None))
  }

  /** Nothing occupies session `s`. */
  ghost predicate Vacant(b: Bus, s: SessionId) {
    forall j :: j in b.jobs && b.jobs[j].session == Some(s) ==> !Occupies(b.jobs[j])
  }

  lemma NotBusyIsVacant(b: Bus, s: SessionId)
    requires Consistent(b) && Exclusive(b) && s in b.sessions && !Busy(b, s) && !Window(b, s)
    ensures Vacant(b, s)
  {}

  lemma OwedIsVacant(b: Bus, s: SessionId)
    requires Exclusive(b) && s in b.sessions && b.sessions[s].owed > 0
    ensures Vacant(b, s)
  {}

  lemma DispatchExclusive(b: Bus, s: SessionId, j: JobId, outcome: DispatchOutcome)
    requires Exclusive(b) && s in b.sessions && Vacant(b, s) && b.sessions[s].owed == 0
    requires j in b.jobs ==> b.jobs[j].session == Some(s) && b.jobs[j].phase == NoTask
    ensures Exclusive(Dispatch(b, s, j, outcome))
  {}

  lemma DrainExclusive(b: Bus, s: SessionId, outcome: DispatchOutcome)
    requires Consistent(b) && Exclusive(b) && Enabled(b, Drain(s, outcome))
    ensures Exclusive(Apply(b, Drain(s, outcome)))
  {
    OwedIsVacant(b, s);
    if b.sessions[s].queue != [] {
      DrainTakesHead(b, s, outcome);
      var mid := Popped(b, s);
      assert Exclusive(mid) && Vacant(mid, s);
      DispatchExclusive(mid, s, b.sessions[s].queue[0], outcome);
    }
  }

  /** A fresh job started in, or parked behind, a session. */
  lemma FreshStartExclusive(b: Bus, mid: Bus, s: SessionId, j: JobId, outcome: DispatchOutcome)
    requires Exclusive(b) && s in b.sessions && Vacant(b, s) && b.sessions[s].owed == 0 && j !in b.jobs
    requires mid.jobs == b.jobs && mid.sessions == b.sessions
    ensures Exclusive(Dispatch(mid, s, j, outcome))
  {
    assert Exclusive(mid) && Vacant(mid, s);
    DispatchExclusive(mid, s, j, outcome);
  }

  lemma FreshParkExclusive(b: Bus, mid: Bus, s: SessionId, j: JobId)
    requires Exclusive(b) && s in b.sessions && j !in b.jobs
    requires mid.jobs == b.jobs && mid.sessions == b.sessions
    ensures Exclusive(Parked(mid, s, j))
  {}

  lemma SubmitExclusive(b: Bus, s: SessionId, estimate: nat, outcome: DispatchOutcome)
    requires Consistent(b) && Exclusive(b) && s in b.sessions && !Window(b, s)
    ensures Exclusive(SubmitTask(b, s, estimate, outcome))
  {
    FreshIsNowhere(b);
    var j := b.counter + 1;
    var checked := b.guard.PreCheck(j, 1, estimate);
    SubmitShape(b, s, estimate, outcome);
    if checked.Ok? {
      var mid := b.(counter := j, guard := checked.value);
      if Busy(b, s) {
        FreshParkExclusive(b, mid, s, j);
      } else {
        NotBusyIsVacant(b, s);
        FreshStartExclusive(b, mid, s, j, outcome);
      }
    }
  }

  /** A step on job `j` and session `s` keeps exclusion if it keeps it there. */
  lemma LocalExclusive(b: Bus, b': Bus, j: JobId, s: Option<SessionId>)
    requires Exclusive(b)
    requires forall x :: x in b'.jobs && x != j ==> x in b.jobs && b'.jobs[x] == b.jobs[x]
    requires b'.sessions.Keys == b.sessions.Keys
    requires forall t :: t in b.sessions && Some(t) != s ==>
                           b'.sessions[t].current == b.sessions[t].current && b'.sessions[t].owed == b.sessions[t].owed
    requires j in b'.jobs && Occupies(b'.jobs[j]) ==>
               b'.jobs[j].session == s && s.value in b.sessions && b'.sessions[s.value].current == Some(j)
    requires s.Some? ==>
               && s.value in b.sessions
               && b'.sessions[s.value].owed <= 1
               && (b'.sessions[s.value].owed == 1 ==> b'.sessions[s.value].current == None)
               && (b'.sessions[s.value].current == b.sessions[s.value].current
                   || b.sessions[s.value].current == Some(j))
    ensures Exclusive(b')
  {}

  lemma TaskStepExclusive(b: Bus, step: Step)
    requires Exclusive(b) && Enabled(b, step)
    requires step.PassGate? || step.Publish? || step.CancelTask? || step.MarkAborted? || step.GiveUp?
    requires JobOk(b, step.j)
    ensures Exclusive(Apply(b, step))
  {
    LocalExclusive(b, Apply(b, step), step.j, b.jobs[step.j].session);
  }

  lemma FinalizeExclusive(b: Bus, j: JobId)
    requires Exclusive(b) && Enabled(b, Finalize(j)) && JobOk(b, j)
    ensures Exclusive(Apply(b, Finalize(j)))
  {
    assert b.jobs[j].session.Some? ==> Occupies(b.jobs[j]);
    LocalExclusive(b, Apply(b, Finalize(j)), j, b.jobs[j].session);
  }

  lemma ReconcileExclusive(b: Bus, s: SessionId)
    requires Exclusive(b) && Enabled(b, Reconcile(s)) && SessionOk(b, s)
    ensures Exclusive(Apply(b, Reconcile(s)))
  {
    LocalExclusive(b, Apply(b, Reconcile(s)), b.sessions[s].current.value, Some(s));
  }

  lemma AbortIdleExclusive(b: Bus, j: JobId)
    requires Exclusive(b) && Enabled(b, AbortIdle(j)) && JobOk(b, j)
    ensures Exclusive(Apply(b, AbortIdle(j)))
  {
    LocalExclusive(b, Apply(b, AbortIdle(j)), j, None);
  }

  lemma OneShotExclusive(b: Bus, depth: nat, estimate: nat, created: bool)
    requires Exclusive(b) && b.counter + 1 !in b.jobs
    ensures Exclusive(OneShot(b, depth, estimate, created))
  {
    LocalExclusive(b, OneShot(b, depth, estimate, created), b.counter + 1, None);
  }

  lemma CreateExclusive(b: Bus, s: SessionId)
    requires Exclusive(b) && s !in b.sessions
    ensures Exclusive(Apply(b, CreateSession(s)))
  {}

  lemma PopExclusive(b: Bus, s: SessionId)
    requires Exclusive(b) && Enabled(b, PopReady(s))
    ensures Exclusive(Apply(b, PopReady(s)))
  {}

  lemma StepExclusive(b: Bus, step: Step)
    requires Consistent(b) && Exclusive(b) && Enabled(b, step) && Permits(Quiet, b, step)
    ensures Exclusive(Apply(b, step))
  {
    match step
    case CreateSession(s) => CreateExclusive(b, s);
    case Submit(s, estimate, outcome) => SubmitExclusive(b, s, estimate, outcome);
    case SubmitOneShot(depth, estimate, created) =>
      FreshIsNowhere(b);
      OneShotExclusive(b, depth, estimate, created);
    case Finalize(j) => FinalizeExclusive(b, j);
    case Drain(s, outcome) => DrainExclusive(b, s, outcome);
    case AbortIdle(j) => AbortIdleExclusive(b, j);
    case Reconcile(s) => ReconcileExclusive(b, s);
    case PopReady(s) => PopExclusive(b, s);
    case _ => TaskStepExclusive(b, step);
  }

  /** Under exclusion a session that owes a drain is not busy, so no quiet run meets a busy drain. */
  lemma {:induction false} QuietNeverDrainsBusy(b: Bus, steps: seq<Step>, final: Bus)
    requires Consistent(b) && Exclusive(b) && Executes(Quiet, b, steps, final)
    ensures NeverDrainsBusy(b, steps)
    ensures Solo(b) && Exclusive(final)
    decreases |steps|
  {
    if steps != [] {
      StepConsistent(b, steps[0]);
      StepExclusive(b, steps[0]);
      QuietNeverDrainsBusy(Apply(b, steps[0]), steps[1..], final);
    }
  }

  /**
   On every run without a submit inside a finalisation window, two jobs of one session
   never both have a task that runs or may run; and if no drain fails to create a task, two
   jobs of one session are never both submitted-or-running.
   */
  lemma SerialExecution(maxDepth: int, maxTokens: int, maxParallel: int, steps: seq<Step>, b: Bus, i: JobId, k: JobId)
    requires Executes(Quiet, InitialBus(maxDepth, maxTokens, maxParallel), steps, b)
    requires i in b.jobs && k in b.jobs && b.jobs[i].session == b.jobs[k].session && b.jobs[i].session.Some?
    ensures Occupies(b.jobs[i]) && Occupies(b.jobs[k]) ==> i == k
    ensures var init := InitialBus(maxDepth, maxTokens, maxParallel);
            NeverFailsCreation(init, steps) && IsActive(b.jobs[i].status) && IsActive(b.jobs[k].status) ==> i == k
  {
    var init := InitialBus(maxDepth, maxTokens, maxParallel);
    InitialConsistent(maxDepth, maxTokens, maxParallel);
    QuietNeverDrainsBusy(init, steps, b);
    NoZombiesThroughoutIff(Quiet, init, steps, b);
  }

  /** Finalisation taken as one step is a special case: such a run never submits in a window. */
  lemma {:induction false} AtomicIsQuiet(b: Bus, steps: seq<Step>, final: Bus)
    requires Executes(Atomic, b, steps, final)
    ensures Executes(Quiet, b, steps, final)
    decreases |steps|
  {
    if steps != [] {
      AtomicIsQuiet(Apply(b, steps[0]), steps[1..], final);
    }
  }

  // ---- Single steps, spelled out ----

  function Dispatched(s: SessionId): Job { Job(Some(s), Submitted, AtGate, false) }

  /** An accepted submit to a session that is not busy starts the new job. */
  lemma SubmitStarts(b: Bus, s: SessionId, estimate: nat) returns (b': Bus)
    requires s in b.sessions && !Busy(b, s) && b.guard.PreCheck(b.counter + 1, 1, estimate).Ok?
    ensures b' == Apply(b, Submit(s, estimate, Started)) && b'.counter == b.counter + 1
    ensures b'.jobs == b.jobs[b.counter + 1 := Dispatched(s)]
    ensures b'.sessions == b.sessions[s := b.sessions[s].(current := Some(b.counter + 1))]
    ensures b'.guard == b.guard.PreCheck(b.counter + 1, 1, estimate).value
  {
    b' := Apply(b, Submit(s, estimate, Started));
  }

  lemma FinalizeEnds(b: Bus, s: SessionId, j: JobId) returns (b': Bus)
    requires Enabled(b, Finalize(j)) && b.jobs[j].session == Some(s) && b.sessions[s].current != Some(j)
    ensures b' == Apply(b, Finalize(j))
    ensures b'.jobs == b.jobs[j := b.jobs[j].(phase := Ended)]
    ensures b'.sessions == b.sessions[s := b.sessions[s].(owed := b.sessions[s].owed + 1)]
  {
    b' := Apply(b, Finalize(j));
  }

  /** A drain starts the head of the queue, if there is one that was not aborted. */
  lemma DrainStarts(b: Bus, s: SessionId) returns (b': Bus)
    requires Enabled(b, Drain(s, Started))
    requires b.sessions[s].queue != [] ==>
               b.sessions[s].queue[0] in b.jobs && b.jobs[b.sessions[s].queue[0]].status == Queued
    ensures b' == Apply(b, Drain(s, Started))
    ensures var session := b.sessions[s].(owed := b.sessions[s].owed - 1);
            if session.queue == [] then b'.jobs == b.jobs && b'.sessions == b.sessions[s := session]
            else
              var head := session.queue[0];
              && b'.jobs == b.jobs[head := Dispatched(s)]
              && b'.sessions == b.sessions[s := session.(queue := session.queue[1..], current := Some(head))]
  {
    b' := Apply(b, Drain(s, Started));
  }

  // ---- Exactly when a submit in the window breaks exclusion ----

  lemma HeadIsParked(b: Bus, s: SessionId)
    requires Consistent(b) && s in b.sessions
    ensures b.sessions[s].queue != [] ==>
              var head := b.sessions[s].queue[0];
              head in b.jobs && b.jobs[head] == Job(Some(s), Queued, NoTask, false) && head <= b.counter
  {
    if b.sessions[s].queue != [] {
      assert SessionOk(b, s) && QueuedHere(b, s, b.sessions[s].queue[0]);
      assert JobOk(b, b.sessions[s].queue[0]);
    }
  }

  /**
   The converse, while a drain is owed: in every consistent state whose session is not busy
   and has a queue, one accepted submit followed by that drain gives the session two tasks.
   */
  lemma WindowSubmitBreaksExclusion(b: Bus, s: SessionId, estimate: nat) returns (final: Bus)
    requires Consistent(b) && s in b.sessions && !Busy(b, s)
    requires b.sessions[s].owed > 0 && b.sessions[s].queue != []
    requires b.guard.PreCheck(b.counter + 1, 1, estimate).Ok?
    ensures Executes(AnyStep, b, [Submit(s, estimate, Started), Drain(s, Started)], final)
    ensures TwoTasks(final, s, b.counter + 1, b.sessions[s].queue[0])
  {
    HeadIsParked(b, s);
    var b1 := SubmitStarts(b, s, estimate);
    final := DrainStarts(b1, s);
    TwoSteps(AnyStep, b, Submit(s, estimate, Started), Drain(s, Started));
  }

  /** The same before the drain is owed: job `j` has published but has not left its `finally`. */
  lemma PublishedSubmitBreaksExclusion(b: Bus, s: SessionId, j: JobId, estimate: nat) returns (final: Bus)
    requires Consistent(b) && s in b.sessions && !Busy(b, s) && b.sessions[s].queue != []
    requires j in b.jobs && b.jobs[j].session == Some(s) && b.jobs[j].phase == Published
    requires b.guard.PreCheck(b.counter + 1, 1, estimate).Ok?
    ensures Executes(AnyStep, b, [Submit(s, estimate, Started), Finalize(j), Drain(s, Started)], final)
    ensures TwoTasks(final, s, b.counter + 1, b.sessions[s].queue[0])
  {
    HeadIsParked(b, s);
    FreshIsNowhere(b);
    final := SubmitThenClose(b, s, j, estimate);
  }

  /** An accepted submit to a busy session parks the new job. */
  lemma SubmitParks(b: Bus, s: SessionId, estimate: nat, outcome: DispatchOutcome) returns (b': Bus)
    requires s in b.sessions && Busy(b, s) && b.guard.PreCheck(b.counter + 1, 1, estimate).Ok?
    ensures b' == Apply(b, Submit(s, estimate, outcome))
    ensures b'.jobs == b.jobs[b.counter + 1 := Job(Some(s), Queued, NoTask, false)]
    ensures b'.sessions == b.sessions[s := b.sessions[s].(queue := b.sessions[s].queue + [b.counter + 1])]
  {
    b' := Apply(b, Submit(s, estimate, outcome));
  }

  /** An empty queue does not help while a drain is owed: two submits, the first of which starts and
      the second of which parks, give the session two tasks when the drain runs. */
  lemma TwoWindowSubmitsBreakExclusion(b: Bus, s: SessionId, first: nat, second: nat) returns (final: Bus)
    requires s in b.sessions && !Busy(b, s) && b.sessions[s].owed > 0 && b.sessions[s].queue == []
    requires var n, checked := b.counter + 1, b.guard.PreCheck(b.counter + 1, 1, first);
             checked.Ok? && checked.value.PreCheck(n + 1, 1, second).Ok?
    ensures Executes(AnyStep, b, [Submit(s, first, Started), Submit(s, second, Started), Drain(s, Started)], final)
    ensures TwoTasks(final, s, b.counter + 1, b.counter + 2)
  {
    var b1 := SubmitStarts(b, s, first);
    var b2 := SubmitParks(b1, s, second, Started);
    final := DrainStarts(b2, s);
    TwoSteps(AnyStep, b1, Submit(s, second, Started), Drain(s, Started));
    Prepend(AnyStep, b, Submit(s, first, Started), [Submit(s, second, Started), Drain(s, Started)], final);
    assert [Submit(s, first, Started)] + [Submit(s, second, Started), Drain(s, Started)]
        == [Submit(s, first, Started), Submit(s, second, Started), Drain(s, Started)];
  }

  /** An accepted submit, the rest of a published job's `finally`, and the drain it owes. */
  lemma SubmitThenClose(b: Bus, s: SessionId, j: JobId, estimate: nat) returns (final: Bus)
    requires s in b.sessions && !Busy(b, s) && b.counter + 1 !in b.jobs
    requires j in b.jobs && b.jobs[j].session == Some(s) && b.jobs[j].phase == Published
    requires b.guard.PreCheck(b.counter + 1, 1, estimate).Ok?
    requires b.sessions[s].queue != [] ==>
               var head := b.sessions[s].queue[0];
               head in b.jobs && b.jobs[head] == Job(Some(s), Queued, NoTask, false)
    ensures Executes(AnyStep, b, [Submit(s, estimate, Started), Finalize(j), Drain(s, Started)], final)
    ensures var n, queue := b.counter + 1, b.sessions[s].queue;
            var jobs := b.jobs[n := Dispatched(s)][j := b.jobs[j].(phase := Ended)];
            && final.jobs == (if queue == [] then jobs else jobs[queue[0] := Dispatched(s)])
            && (queue == [] ==> final.sessions == b.sessions[s := b.sessions[s].(current := Some(n))])
  {
    var b1 := SubmitStarts(b, s, estimate);
    var b2 := FinalizeEnds(b1, s, j);
    final := DrainStarts(b2, s);
    TwoSteps(AnyStep, b1, Finalize(j), Drain(s, Started));
    Prepend(AnyStep, b, Submit(s, estimate, Started), [Finalize(j), Drain(s, Started)], final);
    assert [Submit(s, estimate, Started)] + [Finalize(j), Drain(s, Started)]
        == [Submit(s, estimate, Started), Finalize(j), Drain(s, Started)];
  }

  /** Exclusion in a state that differs from an exclusive one in session `s` alone. */
  lemma SoleOccupant(b: Bus, b': Bus, s: SessionId, n: JobId)
    requires Exclusive(b) && s in b.sessions && b'.sessions.Keys == b.sessions.Keys
    requires forall t :: t in b.sessions && t != s ==> b'.sessions[t] == b.sessions[t]
    requires forall x :: x in b'.jobs && b'.jobs[x].session != Some(s) ==> x in b.jobs && b'.jobs[x] == b.jobs[x]
    requires forall x :: x in b'.jobs && b'.jobs[x].session == Some(s) && Occupies(b'.jobs[x]) ==> x == n
    requires b'.sessions[s].current == Some(n) && b'.sessions[s].owed == 0
    ensures Exclusive(b')
  {}

  /** With nothing queued, a submit while a drain is owed does no harm once the drain has run. */
  lemma EmptyWindowSubmitIsHarmless(b: Bus, s: SessionId, estimate: nat) returns (final: Bus)
    requires Exclusive(b) && b.counter + 1 !in b.jobs
    requires s in b.sessions && b.sessions[s].owed > 0 && b.sessions[s].queue == []
    requires b.guard.PreCheck(b.counter + 1, 1, estimate).Ok?
    ensures Executes(AnyStep, b, [Submit(s, estimate, Started), Drain(s, Started)], final) && Exclusive(final)
  {
    OwedIsVacant(b, s);
    var b1 := SubmitStarts(b, s, estimate);
    final := DrainStarts(b1, s);
    TwoSteps(AnyStep, b, Submit(s, estimate, Started), Drain(s, Started));
    SoleOccupant(b, final, s, b.counter + 1);
  }

  /** Under exclusion, a published job is the one its session is at. */
  lemma PublishedIsSole(b: Bus, s: SessionId, j: JobId)
    requires Exclusive(b) && s in b.sessions && j in b.jobs && JobOk(b, j)
    requires b.jobs[j].session == Some(s) && b.jobs[j].phase == Published
    ensures b.sessions[s].current == Some(j) && b.sessions[s].owed == 0 && Terminal(b.jobs[j].status) && !Busy(b, s)
    ensures forall x :: x in b.jobs && b.jobs[x].session == Some(s) && Occupies(b.jobs[x]) ==> x == j
  {
    assert Occupies(b.jobs[j]);
  }

  lemma CloseKeepsExclusion(b: Bus, b': Bus, s: SessionId, j: JobId, n: JobId)
    requires Exclusive(b) && s in b.sessions && b.sessions[s].owed == 0 && n !in b.jobs
    requires j in b.jobs && b.jobs[j].session == Some(s) && Terminal(b.jobs[j].status)
    requires forall x :: x in b.jobs && b.jobs[x].session == Some(s) && Occupies(b.jobs[x]) ==> x == j
    requires b'.jobs == b.jobs[n := Dispatched(s)][j := b.jobs[j].(phase := Ended)]
    requires b'.sessions == b.sessions[s := b.sessions[s].(current := Some(n))]
    ensures Exclusive(b')
  {
    SoleOccupant(b, b', s, n);
  }

  lemma TwoTasksExclude(b: Bus, s: SessionId, i: JobId, k: JobId)
    requires TwoTasks(b, s, i, k)
    ensures !Exclusive(b)
  {}

  /** From an exclusive state that owes a drain, an accepted submit and the drain keep exclusion
      if and only if nothing is queued. */
  lemma WindowSubmitExactly(b: Bus, s: SessionId, estimate: nat) returns (final: Bus)
    requires Consistent(b) && Exclusive(b) && s in b.sessions && b.sessions[s].owed > 0
    requires b.guard.PreCheck(b.counter + 1, 1, estimate).Ok?
    ensures Executes(AnyStep, b, [Submit(s, estimate, Started), Drain(s, Started)], final)
    ensures Exclusive(final) <==> b.sessions[s].queue == []
  {
    if b.sessions[s].queue == [] {
      FreshIsNowhere(b);
      final := EmptyWindowSubmitIsHarmless(b, s, estimate);
    } else {
      final := WindowSubmitBreaksExclusion(b, s, estimate);
      TwoTasksExclude(final, s, b.counter + 1, b.sessions[s].queue[0]);
    }
  }

  /** The same from an exclusive state in which a job has published and not left its `finally`. */
  lemma PublishedSubmitExactly(b: Bus, s: SessionId, j: JobId, estimate: nat) returns (final: Bus)
    requires Consistent(b) && Exclusive(b) && s in b.sessions
    requires j in b.jobs && b.jobs[j].session == Some(s) && b.jobs[j].phase == Published
    requires b.guard.PreCheck(b.counter + 1, 1, estimate).Ok?
    ensures Executes(AnyStep, b, [Submit(s, estimate, Started), Finalize(j), Drain(s, Started)], final)
    ensures Exclusive(final) <==> b.sessions[s].queue == []
  {
    HeadIsParked(b, s);
    FreshIsNowhere(b);
    PublishedIsSole(b, s, j);
    final := SubmitThenClose(b, s, j, estimate);
    ClosedExactly(b, final, s, j);
  }

  lemma ClosedExactly(b: Bus, b': Bus, s: SessionId, j: JobId)
    requires Exclusive(b) && s in b.sessions && b.sessions[s].owed == 0 && b.counter + 1 !in b.jobs
    requires j in b.jobs && b.jobs[j].session == Some(s) && Terminal(b.jobs[j].status)
    requires forall x :: x in b.jobs && b.jobs[x].session == Some(s) && Occupies(b.jobs[x]) ==> x == j
    requires b.sessions[s].queue != [] ==> b.sessions[s].queue[0] in b.jobs && b.sessions[s].queue[0] != j
    requires var n, queue := b.counter + 1, b.sessions[s].queue;
             var jobs := b.jobs[n := Dispatched(s)][j := b.jobs[j].(phase := Ended)];
             && b'.jobs == (if queue == [] then jobs else jobs[queue[0] := Dispatched(s)])
             && (queue == [] ==> b'.sessions == b.sessions[s := b.sessions[s].(current := Some(n))])
    ensures Exclusive(b') <==> b.sessions[s].queue == []
  {
    if b.sessions[s].queue == [] {
      CloseKeepsExclusion(b, b', s, j, b.counter + 1);
    } else {
      TwoTasksExclude(b', s, b.counter + 1, b.sessions[s].queue[0]);
    }
  }

  // ---- What a failed dispatch does ----

  /** Under exclusion, a session that owes a drain is in its window through that drain alone. */
  lemma OwedOnce(b: Bus, s: SessionId)
    requires Exclusive(b) && s in b.sessions && b.sessions[s].owed > 0
    ensures b.sessions[s].owed == 1 && b.sessions[s].current == None
    ensures forall j :: j in b.jobs && b.jobs[j].session == Some(s) ==> b.jobs[j].phase != Published
  {
    OwedIsVacant(b, s);
  }

  /** A drain whose dispatch fails is used up: the head is gone from the queue, nothing else comes. */
  lemma FailedDrain(b: Bus, s: SessionId, outcome: DispatchOutcome) returns (b': Bus)
    requires s in b.sessions && b.sessions[s].owed == 1 && b.sessions[s].current == None
    requires b.sessions[s].queue != [] && outcome != Started
    requires var head := b.sessions[s].queue[0]; head in b.jobs && b.jobs[head] == Job(Some(s), Queued, NoTask, false)
    requires forall j :: j in b.jobs && b.jobs[j].session == Some(s) ==> b.jobs[j].phase != Published
    ensures b' == Apply(b, Drain(s, outcome)) && b'.counter == b.counter
    ensures b'.sessions == b.sessions[s := b.sessions[s].(queue := b.sessions[s].queue[1..], owed := 0)]
    ensures var head := b.sessions[s].queue[0];
            var status := if outcome == CreateFails then Submitted else Queued;
            && b'.jobs == b.jobs[head := Job(Some(s), status, NoTask, false)]
            && b'.guard == b.guard.Release(head)
    ensures !Window(b', s) && !Busy(b', s)
  {
    b' := Apply(b, Drain(s, outcome));
    match outcome
    case TrimFails =>
    case CreateFails =>
  }

  /** A task creation that fails in a drain leaves its job submitted; the next accepted submit, in
      no window, makes two submitted jobs of one session. */
  lemma FailedCreationLeavesTwo(b: Bus, s: SessionId, estimate: nat) returns (final: Bus)
    requires Consistent(b) && Exclusive(b) && s in b.sessions && b.sessions[s].owed > 0 && b.sessions[s].queue != []
    requires b.guard.Release(b.sessions[s].queue[0]).PreCheck(b.counter + 1, 1, estimate).Ok?
    ensures Executes(Quiet, b, [Drain(s, CreateFails), Submit(s, estimate, Started)], final)
    ensures var n, head := b.counter + 1, b.sessions[s].queue[0];
            && n != head && n in final.jobs && head in final.jobs
            && final.jobs[n].session == final.jobs[head].session == Some(s)
            && Live(final.jobs[n].status) && Live(final.jobs[head].status)
  {
    HeadIsParked(b, s);
    OwedOnce(b, s);
    final := FailedCreationRun(b, s, estimate);
  }

  lemma FailedCreationRun(b: Bus, s: SessionId, estimate: nat) returns (final: Bus)
    requires s in b.sessions && b.sessions[s].owed == 1 && b.sessions[s].current == None && b.sessions[s].queue != []
    requires var head := b.sessions[s].queue[0];
             head in b.jobs && b.jobs[head] == Job(Some(s), Queued, NoTask, false) && head <= b.counter
    requires forall j :: j in b.jobs && b.jobs[j].session == Some(s) ==> b.jobs[j].phase != Published
    requires b.guard.Release(b.sessions[s].queue[0]).PreCheck(b.counter + 1, 1, estimate).Ok?
    ensures Executes(Quiet, b, [Drain(s, CreateFails), Submit(s, estimate, Started)], final)
    ensures var n, head := b.counter + 1, b.sessions[s].queue[0];
            && n != head && n in final.jobs && head in final.jobs
            && final.jobs[n].session == final.jobs[head].session == Some(s)
            && Live(final.jobs[n].status) && Live(final.jobs[head].status)
  {
    var b1 := FailedDrain(b, s, CreateFails);
    final := SubmitStarts(b1, s, estimate);
    TwoSteps(Quiet, b, Drain(s, CreateFails), Submit(s, estimate, Started));
  }

  // ---- First in, first out ----

  /** A queue is reached by a drain to come, or by the one its running job will owe. */
  ghost predicate AttendedSession(b: Bus, s: SessionId)
    requires s in b.sessions
  {
    var session := b.sessions[s];
    && (session.queue != [] ==> session.owed > 0 || session.current.Some?)
    && (session.current.Some? ==> session.current.value in b.jobs && InFlight(b.jobs[session.current.value].phase))
  }

  /** No queue is abandoned, and every queued job is in the queue of its session. */
  ghost predicate Attended(b: Bus) {
    (forall s :: s in b.sessions ==> AttendedSession(b, s)) && NoneStranded(b)
  }

  /** A step on job `j` and session `s` leaves no queue behind if it leaves none in `s`. */
  lemma LocalAttended(b: Bus, b': Bus, j: JobId, s: Option<SessionId>)
    requires Consistent(b) && Attended(b)
    requires forall x :: x in b.jobs ==> x in b'.jobs
    requires forall x :: x in b'.jobs && x != j ==> x in b.jobs && b'.jobs[x] == b.jobs[x]
    requires j in b.jobs ==> b.jobs[j].session == s
    requires b'.sessions.Keys == b.sessions.Keys
    requires forall t :: t in b.sessions && Some(t) != s ==> b'.sessions[t] == b.sessions[t]
    requires s.Some? ==>
               && s.value in b.sessions && AttendedSession(b', s.value)
               && (forall x :: x != j && x in b.sessions[s.value].queue ==> x in b'.sessions[s.value].queue)
    requires j in b'.jobs && b'.jobs[j].status == Queued ==>
               b'.jobs[j].session == s && s.Some? && j in b'.sessions[s.value].queue
    ensures Attended(b')
  {
    forall t | t in b'.sessions
      ensures AttendedSession(b', t)
    {
      if Some(t) != s {
        assert AttendedSession(b, t) && SessionOk(b, t);
      }
    }
  }

  /** Outside its window, an attended session that is not busy has neither a current job nor a queue. */
  lemma NotBusyIsIdle(b: Bus, s: SessionId)
    requires s in b.sessions && AttendedSession(b, s) && SessionOk(b, s) && !Busy(b, s) && !Window(b, s)
    requires b.sessions[s].current.Some? ==> JobOk(b, b.sessions[s].current.value)
    ensures b.sessions[s].current == None && b.sessions[s].queue == []
  {}

  lemma SubmitAttended(b: Bus, s: SessionId, estimate: nat)
    requires Consistent(b) && Attended(b) && s in b.sessions && !Window(b, s)
    ensures Attended(SubmitTask(b, s, estimate, Started))
  {
    var j := b.counter + 1;
    FreshIsNowhere(b);
    SubmitShape(b, s, estimate, Started);
    assert SessionOk(b, s) && AttendedSession(b, s);
    if !Busy(b, s) {
      NotBusyIsIdle(b, s);
    }
    SubmitAttendedSession(b, s, estimate);
    LocalAttended(b, SubmitTask(b, s, estimate, Started), j, Some(s));
  }

  lemma SubmitAttendedSession(b: Bus, s: SessionId, estimate: nat)
    requires s in b.sessions && AttendedSession(b, s) && b.counter + 1 !in b.jobs
    requires Busy(b, s) || b.sessions[s].queue == []
    ensures AttendedSession(SubmitTask(b, s, estimate, Started), s)
  {}

  lemma DrainAttended(b: Bus, s: SessionId)
    requires Consistent(b) && Exclusive(b) && Attended(b) && Enabled(b, Drain(s, Started))
    ensures Attended(Apply(b, Drain(s, Started)))
  {
    if b.sessions[s].queue != [] {
      DrainTakesHead(b, s, Started);
      DrainHeadAttended(b, s);
    } else {
      FreshIsNowhere(b);
      assert AttendedSession(b, s);
      LocalAttended(b, Apply(b, Drain(s, Started)), b.counter + 1, Some(s));
    }
  }

  lemma DrainHeadAttended(b: Bus, s: SessionId)
    requires Consistent(b) && Attended(b) && s in b.sessions && b.sessions[s].queue != [] && b.sessions[s].owed > 0
    requires QueuedHere(b, s, b.sessions[s].queue[0])
    ensures Attended(Dispatch(Popped(b, s), s, b.sessions[s].queue[0], Started))
  {
    var queue := b.sessions[s].queue;
    assert queue == [queue[0]] + queue[1..];
    LocalAttended(b, Dispatch(Popped(b, s), s, queue[0], Started), queue[0], Some(s));
  }

  lemma AbortAttended(b: Bus, j: JobId)
    requires Consistent(b) && Attended(b) && Enabled(b, AbortIdle(j))
    ensures Attended(Apply(b, AbortIdle(j)))
  {
    var s := b.jobs[j].session;
    assert JobOk(b, j);
    PurgeIsLocal(b, j);
    if s.Some? {
      WithoutMembers(b.sessions[s.value].queue, j);
      AbortAttendedSession(b, j, s.value);
    }
    LocalAttended(b, Apply(b, AbortIdle(j)), j, s);
  }

  lemma AbortAttendedSession(b: Bus, j: JobId, s: SessionId)
    requires s in b.sessions && AttendedSession(b, s) && Enabled(b, AbortIdle(j))
    requires PhaseMatchesStatus(b.jobs[j])
    ensures AttendedSession(Apply(b, AbortIdle(j)), s)
  {
    WithoutMembers(b.sessions[s].queue, j);
    assert Without(b.sessions[s].queue, j) != [] ==> Without(b.sessions[s].queue, j)[0] in b.sessions[s].queue;
  }

  /** Steps on one running task leave its session with that task or with a drain to come. */
  lemma TaskAttendedSession(b: Bus, step: Step, s: SessionId)
    requires s in b.sessions && AttendedSession(b, s) && SessionOk(b, s)
    requires step.PassGate? || step.Publish? || step.Finalize? || step.MarkAborted? || step.GiveUp?
    requires Enabled(b, step) && JobOk(b, step.j) && b.jobs[step.j].session == Some(s)
    requires Occupies(b.jobs[step.j]) ==> b.sessions[s].current == Some(step.j)
    ensures AttendedSession(Apply(b, step), s)
  {}

  lemma TaskAttended(b: Bus, step: Step)
    requires Consistent(b) && Exclusive(b) && Attended(b) && Enabled(b, step) && Permits(Fifo, b, step)
    requires IsTaskStep(step)
    ensures Attended(Apply(b, step))
  {
    var s := b.jobs[step.j].session;
    assert JobOk(b, step.j);
    if s.Some? {
      assert SessionOk(b, s.value);
      TaskAttendedSession(b, step, s.value);
    }
    TaskStepFrame(b, step);
    LocalAttended(b, Apply(b, step), step.j, s);
  }

  /** An attended session's current job is in flight, so there is never anything to reconcile. */
  lemma NothingToReconcile(b: Bus)
    requires Attended(b)
    ensures forall s :: !Enabled(b, Reconcile(s))
  {
    forall s
      ensures !Enabled(b, Reconcile(s))
    {
      assert s in b.sessions ==> AttendedSession(b, s);
    }
  }

  lemma OneShotAttended(b: Bus, depth: nat, estimate: nat, created: bool)
    requires Consistent(b) && Attended(b)
    ensures Attended(OneShot(b, depth, estimate, created))
  {
    FreshIsNowhere(b);
    LocalAttended(b, OneShot(b, depth, estimate, created), b.counter + 1, None);
  }

  lemma OtherAttended(b: Bus, step: Step)
    requires Attended(b) && Enabled(b, step)
    requires step.CreateSession? || step.PopReady?
    ensures Attended(Apply(b, step))
  {
    var b' := Apply(b, step);
    forall t | t in b'.sessions
      ensures AttendedSession(b', t)
    {
      assert t in b.sessions ==> AttendedSession(b, t);
    }
  }

  lemma StepAttended(b: Bus, step: Step)
    requires Consistent(b) && Exclusive(b) && Attended(b) && Enabled(b, step) && Permits(Fifo, b, step)
    ensures Attended(Apply(b, step))
  {
    if step.Submit? {
      SubmitAttended(b, step.s, step.estimate);
    } else if step.Drain? {
      DrainAttended(b, step.s);
    } else if step.AbortIdle? {
      AbortAttended(b, step.j);
    } else if step.SubmitOneShot? {
      OneShotAttended(b, step.depth, step.estimate, step.created);
    } else if step.CreateSession? || step.PopReady? {
      OtherAttended(b, step);
    } else {
      NothingToReconcile(b);
      TaskAttended(b, step);
    }
  }

  lemma FifoStartsPastNothing(b: Bus, step: Step)
    requires Consistent(b) && Attended(b) && Permits(Fifo, b, step)
    ensures !StartsPastQueue(b, step)
  {
    if StartsPastQueue(b, step) {
      assert SessionOk(b, step.s) && AttendedSession(b, step.s);
      NotBusyIsIdle(b, step.s);
    }
  }

  /** A run by the `Fifo` rule leaves no queue behind, so it never starts past one. */
  lemma {:induction false} FifoNeverStartsPastQueue(b: Bus, steps: seq<Step>, final: Bus)
    requires Consistent(b) && Exclusive(b) && Attended(b) && Executes(Fifo, b, steps, final)
    ensures NeverDrainsBusy(b, steps) && NeverStartsPastQueue(b, steps)
    ensures Attended(final)
    decreases |steps|
  {
    if steps != [] {
      FifoStartsPastNothing(b, steps[0]);
      StepConsistent(b, steps[0]);
      StepExclusive(b, steps[0]);
      StepAttended(b, steps[0]);
      FifoNeverStartsPastQueue(Apply(b, steps[0]), steps[1..], final);
    }
  }

  /**
   Jobs start in submission order, which is the order of their ids; a queued job is never
   stranded, since it is in its session's queue and a running job or an owed drain will
   reach that queue.
   */
  lemma StartsInSubmissionOrder(maxDepth: int, maxTokens: int, maxParallel: int, steps: seq<Step>, b: Bus, s: SessionId)
    requires Executes(Fifo, InitialBus(maxDepth, maxTokens, maxParallel), steps, b) && s in b.sessions
    ensures Increasing(b.sessions[s].started + b.sessions[s].queue)
    ensures forall j :: j in b.jobs && b.jobs[j].session == Some(s) && b.jobs[j].status == Queued
                        ==> j in b.sessions[s].queue
    ensures b.sessions[s].queue != [] ==>
              || b.sessions[s].owed > 0
              || (b.sessions[s].current.Some? && b.sessions[s].current.value in b.jobs
                  && InFlight(b.jobs[b.sessions[s].current.value].phase))
  {
    var init := InitialBus(maxDepth, maxTokens, maxParallel);
    InitialConsistent(maxDepth, maxTokens, maxParallel);
    FifoNeverStartsPastQueue(init, steps, b);
    LinedThroughoutIff(Fifo, init, steps, b);
    assert AttendedSession(b, s);
    GateLeaves(b, s);
  }

  lemma GateLeaves(b: Bus, s: SessionId)
    requires s in b.sessions && LinedSession(b, s)
    ensures Increasing(b.sessions[s].started + b.sessions[s].queue)
  {
    var started, gate, queue := b.sessions[s].started, AtGateNow(b, s), b.sessions[s].queue;
    assert forall i :: 0 <= i < |started + queue| ==>
                         (started + queue)[i] == (started + gate + queue)[if i < |started| then i else i + |gate|];
  }

  // ---- Runs that break the promises ----

  lemma Prepend(rule: Rule, b: Bus, step: Step, steps: seq<Step>, final: Bus)
    requires Enabled(b, step) && Permits(rule, b, step) && Executes(rule, Apply(b, step), steps, final)
    ensures Executes(rule, b, [step] + steps, final)
  {
    assert ([step] + steps)[1..] == steps;
  }

  lemma {:induction false} Append(rule: Rule, b: Bus, first: seq<Step>, mid: Bus, second: seq<Step>, final: Bus)
    requires Executes(rule, b, first, mid) && Executes(rule, mid, second, final)
    ensures Executes(rule, b, first + second, final)
    decreases |first|
  {
    if first == [] {
      assert first + second == second;
    } else {
      Append(rule, Apply(b, first[0]), first[1..], mid, second, final);
      assert (first + second)[1..] == first[1..] + second;
    }
  }

  /** Job 2 is parked behind job 1, which waits at the gate. */
  ghost predicate AtGateWithQueue(b: Bus) {
    && b.jobs == map[1 := Dispatched("s"), 2 := Job(Some("s"), Queued, NoTask, false)]
    && b.sessions == map["s" := Session(Some(1), [2], 0, [], [])]
    && b.counter == 2 && b.guard.maxDepth == 2 && b.guard.maxTokens == 100 && b.guard.reserved == 0 && b.guard.free == 4
  }

  lemma ReachGate() returns (steps: seq<Step>, b: Bus)
    ensures Executes(Quiet, InitialBus(2, 100, 4), steps, b) && AtGateWithQueue(b)
  {
    var b0 := InitialBus(2, 100, 4);
    var b1 := Apply(b0, CreateSession("s"));
    var b2 := Apply(b1, Submit("s", 0, Started));
    b := Apply(b2, Submit("s", 0, Started));
    assert b.sessions["s"].queue == [2];
    assert b.sessions.Keys == {"s"};
    TwoSteps(Quiet, b1, Submit("s", 0, Started), Submit("s", 0, Started));
    steps := [Submit("s", 0, Started), Submit("s", 0, Started)];
    Prepend(Quiet, b0, CreateSession("s"), steps, b);
    steps := [CreateSession("s")] + steps;
  }

  /** Job 2 is parked behind job 1, whose status is written but whose `finally` has not run. */
  ghost predicate InWindow(b: Bus) {
    && b.jobs == map[1 := Job(Some("s"), Completed, Published, true), 2 := Job(Some("s"), Queued, NoTask, false)]
    && b.sessions == map["s" := Session(Some(1), [2], 0, [1], [1])]
    && b.counter == 2 && b.guard.maxDepth == 2 && b.guard.maxTokens == 100 && b.guard.reserved == 0
  }

  lemma PublishFromGate(b: Bus) returns (b': Bus)
    requires AtGateWithQueue(b)
    ensures Executes(Quiet, b, [PassGate(1), Publish(1, Completed)], b') && InWindow(b')
  {
    b' := Apply(Apply(b, PassGate(1)), Publish(1, Completed));
    assert b'.sessions["s"].mailbox == [1] && b'.sessions["s"].started == [1];
    TwoSteps(Quiet, b, PassGate(1), Publish(1, Completed));
  }

  lemma ReachWindow() returns (steps: seq<Step>, b: Bus)
    ensures Executes(Quiet, InitialBus(2, 100, 4), steps, b) && InWindow(b)
  {
    var before, gate := ReachGate();
    b := PublishFromGate(gate);
    steps := [PassGate(1), Publish(1, Completed)];
    Append(Quiet, InitialBus(2, 100, 4), before, gate, steps, b);
    steps := before + steps;
  }

  lemma {:induction false} QuietIsARun(b: Bus, steps: seq<Step>, final: Bus)
    requires Executes(Quiet, b, steps, final)
    ensures Executes(AnyStep, b, steps, final)
    decreases |steps|
  {
    if steps != [] {
      QuietIsARun(Apply(b, steps[0]), steps[1..], final);
    }
  }

  /** From an empty bus, a submit that lands between job 1's status write and the drain in its
      `finally` gives the session two tasks: its own job 3 and the parked job 2. */
  lemma RaceIsReachable() returns (steps: seq<Step>, b: Bus)
    ensures Executes(AnyStep, InitialBus(2, 100, 4), steps, b)
    ensures TwoTasks(b, "s", 3, 2)
  {
    var init := InitialBus(2, 100, 4);
    var before, window := ReachWindow();
    InitialConsistent(2, 100, 4);
    RunConsistent(Quiet, init, before, window);
    b := PublishedSubmitBreaksExclusion(window, "s", 1, 0);
    steps := [Submit("s", 0, Started), Finalize(1), Drain("s", Started)];
    QuietIsARun(init, before, window);
    Append(AnyStep, init, before, window, steps, b);
    steps := before + steps;
  }

  /** The next job has started, while the older jobs `waiting` are still parked. */
  ghost predicate Overtaken(b: Bus, b': Bus, s: SessionId, waiting: seq<JobId>)
    requires s in b.sessions
  {
    && s in b'.sessions && waiting != []
    && b'.sessions[s].started == b.sessions[s].started + [b.counter + 1]
    && b'.sessions[s].queue == waiting
    && forall x :: x in waiting ==> x < b.counter + 1
  }

  lemma QueueIsOlder(b: Bus, s: SessionId)
    requires Consistent(b) && s in b.sessions
    ensures forall x :: x in b.sessions[s].queue ==> x <= b.counter
  {
    forall x | x in b.sessions[s].queue ensures x <= b.counter {
      assert SessionOk(b, s) && QueuedHere(b, s, x);
      assert JobOk(b, x);
    }
  }

  /** An accepted submit to a session that is not busy, passing the gate at once. */
  lemma StartsAhead(rule: Rule, b: Bus, s: SessionId, estimate: nat) returns (b': Bus)
    requires s in b.sessions && !Busy(b, s) && b.guard.free > 0
    requires rule == AnyStep || (rule == Quiet && !Window(b, s))
    requires b.guard.PreCheck(b.counter + 1, 1, estimate).Ok?
    ensures Executes(rule, b, [Submit(s, estimate, Started), PassGate(b.counter + 1)], b')
    ensures s in b'.sessions && b'.sessions[s].queue == b.sessions[s].queue
    ensures b'.sessions[s].started == b.sessions[s].started + [b.counter + 1]
  {
    var n := b.counter + 1;
    var b1 := SubmitStarts(b, s, estimate);
    b' := Apply(b1, PassGate(n));
    TwoSteps(rule, b, Submit(s, estimate, Started), PassGate(n));
  }

  /**
   In every consistent state whose session is not busy and has a queue, the next accepted
   submit starts ahead of every parked job.
   */
  lemma SubmitOvertakes(rule: Rule, b: Bus, s: SessionId, estimate: nat) returns (final: Bus)
    requires Consistent(b) && StartsPastQueue(b, Submit(s, estimate, Started)) && b.guard.free > 0
    requires rule == AnyStep || (rule == Quiet && !Window(b, s))
    ensures Executes(rule, b, [Submit(s, estimate, Started), PassGate(b.counter + 1)], final)
    ensures Overtaken(b, final, s, b.sessions[s].queue)
  {
    QueueIsOlder(b, s);
    final := StartsAhead(rule, b, s, estimate);
  }

  /** The same after a run that abandoned a queue without starting anything. */
  lemma AbandonedIsOvertaken(rule: Rule, b: Bus, before: seq<Step>, mid: Bus, s: SessionId, estimate: nat)
    returns (final: Bus)
    requires Executes(rule, b, before, mid) && Consistent(mid) && mid.counter == b.counter
    requires StartsPastQueue(mid, Submit(s, estimate, Started)) && mid.guard.free > 0
    requires s in b.sessions && mid.sessions[s].started == b.sessions[s].started
    requires rule == AnyStep || (rule == Quiet && !Window(mid, s))
    ensures Executes(rule, b, before + [Submit(s, estimate, Started), PassGate(b.counter + 1)], final)
    ensures Overtaken(b, final, s, mid.sessions[s].queue)
  {
    final := SubmitOvertakes(rule, mid, s, estimate);
    Append(rule, b, before, mid, [Submit(s, estimate, Started), PassGate(b.counter + 1)], final);
  }

  lemma AbortAtGate(rule: Rule, b: Bus, j: JobId) returns (b': Bus)
    requires j in b.jobs && b.jobs[j].phase == AtGate && b.jobs[j].status == Submitted
    requires rule == AnyStep || rule == Quiet
    ensures Executes(rule, b, [CancelTask(j), MarkAborted(j)], b')
    ensures b' == b.(jobs := b.jobs[j := b.jobs[j].(status := Aborted, phase := Ended)], guard := b.guard.Release(j))
  {
    b' := Apply(Apply(b, CancelTask(j)), MarkAborted(j));
    TwoSteps(rule, b, CancelTask(j), MarkAborted(j));
  }

  lemma AbortAbandons(rule: Rule, b: Bus, s: SessionId, j: JobId, estimate: nat) returns (mid: Bus)
    requires s in b.sessions && b.sessions[s].current == Some(j) && b.sessions[s].queue != []
    requires j in b.jobs && b.jobs[j].phase == AtGate && b.jobs[j].status == Submitted && b.guard.free > 0
    requires b.guard.Release(j).PreCheck(b.counter + 1, 1, estimate).Ok?
    requires rule == AnyStep || (rule == Quiet && !Window(b, s))
    ensures Executes(rule, b, [CancelTask(j), MarkAborted(j)], mid)
    ensures mid.sessions == b.sessions && mid.counter == b.counter && mid.guard.free > 0
    ensures StartsPastQueue(mid, Submit(s, estimate, Started)) && (rule == AnyStep || !Window(mid, s))
  {
    mid := AbortAtGate(rule, b, j);
  }

  /**
   A job aborted at the concurrency gate skips `finally`, so nothing drains its session's
   queue: in every consistent state with such a job and a queue, the next accepted submit
   finds the session not busy and overtakes.
   */
  lemma GateAbortOvertakes(rule: Rule, b: Bus, s: SessionId, j: JobId, estimate: nat) returns (final: Bus)
    requires Consistent(b) && s in b.sessions && b.sessions[s].current == Some(j) && b.sessions[s].queue != []
    requires j in b.jobs && b.jobs[j].phase == AtGate && b.guard.free > 0
    requires b.guard.Release(j).PreCheck(b.counter + 1, 1, estimate).Ok?
    requires rule == AnyStep || (rule == Quiet && !Window(b, s))
    ensures Executes(rule, b, [CancelTask(j), MarkAborted(j)]
            + [Submit(s, estimate, Started), PassGate(b.counter + 1)], final)
    ensures Overtaken(b, final, s, b.sessions[s].queue)
  {
    assert JobOk(b, j);
    var mid := AbortAbandons(rule, b, s, j, estimate);
    RunConsistent(rule, b, [CancelTask(j), MarkAborted(j)], mid);
    final := AbandonedIsOvertaken(rule, b, [CancelTask(j), MarkAborted(j)], mid, s, estimate);
  }

  /**
   A dispatch that fails in a drain has the same effect: the drain is used up, and the next
   submit, in no window, overtakes what is still parked.
   */
  lemma FailedDispatchOvertakes(b: Bus, s: SessionId, outcome: DispatchOutcome, estimate: nat) returns (final: Bus)
    requires Consistent(b) && Exclusive(b) && s in b.sessions && b.sessions[s].owed > 0 && outcome != Started
    requires |b.sessions[s].queue| >= 2 && b.guard.free > 0
    requires b.guard.Release(b.sessions[s].queue[0]).PreCheck(b.counter + 1, 1, estimate).Ok?
    ensures Executes(Quiet, b, [Drain(s, outcome)] + [Submit(s, estimate, Started), PassGate(b.counter + 1)], final)
    ensures Overtaken(b, final, s, b.sessions[s].queue[1..])
  {
    HeadIsParked(b, s);
    OwedOnce(b, s);
    var mid := FailedDrainAbandons(b, s, outcome, estimate);
    RunConsistent(Quiet, b, [Drain(s, outcome)], mid);
    final := AbandonedIsOvertaken(Quiet, b, [Drain(s, outcome)], mid, s, estimate);
  }

  lemma FailedDrainAbandons(b: Bus, s: SessionId, outcome: DispatchOutcome, estimate: nat) returns (mid: Bus)
    requires s in b.sessions && b.sessions[s].owed == 1 && b.sessions[s].current == None
    requires |b.sessions[s].queue| >= 2 && outcome != Started && b.guard.free > 0
    requires var head := b.sessions[s].queue[0]; head in b.jobs && b.jobs[head] == Job(Some(s), Queued, NoTask, false)
    requires forall j :: j in b.jobs && b.jobs[j].session == Some(s) ==> b.jobs[j].phase != Published
    requires b.guard.Release(b.sessions[s].queue[0]).PreCheck(b.counter + 1, 1, estimate).Ok?
    ensures Executes(Quiet, b, [Drain(s, outcome)], mid)
    ensures s in mid.sessions && mid.sessions[s].queue == b.sessions[s].queue[1..]
    ensures mid.sessions[s].started == b.sessions[s].started && mid.counter == b.counter && mid.guard.free > 0
    ensures StartsPastQueue(mid, Submit(s, estimate, Started)) && !Window(mid, s)
  {
    mid := FailedDrain(b, s, outcome);
    assert Executes(Quiet, mid, [], mid);
    Prepend(Quiet, b, Drain(s, outcome), [], mid);
    assert [Drain(s, outcome)] + [] == [Drain(s, outcome)];
  }

  /** The popped job of a failed trim stays registered as queued and is in no queue at all. */
  lemma FailedTrimStrands(b: Bus, s: SessionId) returns (b': Bus)
    requires Consistent(b) && Exclusive(b) && s in b.sessions && b.sessions[s].owed > 0 && b.sessions[s].queue != []
    ensures b' == Apply(b, Drain(s, TrimFails))
    ensures var head := b.sessions[s].queue[0];
            && head in b'.jobs && b'.jobs[head].status == Queued
            && forall t :: t in b'.sessions ==> head !in b'.sessions[t].queue
  {
    var head, queue := b.sessions[s].queue[0], b.sessions[s].queue;
    HeadIsParked(b, s);
    OwedOnce(b, s);
    b' := FailedDrain(b, s, TrimFails);
    assert SessionOk(b, s);
    assert head !in queue[1..] by {
      assert forall i :: 0 < i < |queue| ==> queue[i] != queue[0];
    }
    forall t | t in b.sessions && t != s ensures head !in b.sessions[t].queue {
      assert SessionOk(b, t);
      assert head in b.sessions[t].queue ==> QueuedHere(b, t, head);
    }
  }

  /** From an empty bus, such an abort makes job 3 start before job 2. */
  lemma GateAbortIsReachable() returns (steps: seq<Step>, b: Bus)
    ensures Executes(Quiet, InitialBus(2, 100, 4), steps, b)
    ensures "s" in b.sessions && b.sessions["s"].started == [3] && b.sessions["s"].queue == [2]
  {
    var init := InitialBus(2, 100, 4);
    var before, gate := ReachGate();
    InitialConsistent(2, 100, 4);
    RunConsistent(Quiet, init, before, gate);
    b := GateAbortOvertakes(Quiet, gate, "s", 1, 0);
    steps := [CancelTask(1), MarkAborted(1)] + [Submit("s", 0, Started), PassGate(3)];
    Append(Quiet, init, before, gate, steps, b);
    steps := before + steps;
  }

  /** Job 1 has left its `finally` and owes the drain that would start job 2. */
  lemma ReachOwedDrain() returns (steps: seq<Step>, b: Bus)
    ensures Executes(Quiet, InitialBus(2, 100, 4), steps, b) && Consistent(b) && Exclusive(b)
    ensures b.counter == 2 && b.guard.maxDepth == 2
    ensures "s" in b.sessions && b.sessions["s"].owed == 1 && b.sessions["s"].queue == [2]
  {
    var before, window := ReachWindow();
    ReachedIsExclusive(before, window);
    FinalizeInWindow(window);
    StepConsistent(window, Finalize(1));
    StepExclusive(window, Finalize(1));
    b := Apply(window, Finalize(1));
    AppendOne(Quiet, InitialBus(2, 100, 4), before, window, Finalize(1));
    steps := before + [Finalize(1)];
  }

  lemma ReachedIsExclusive(steps: seq<Step>, b: Bus)
    requires Executes(Quiet, InitialBus(2, 100, 4), steps, b)
    ensures Consistent(b) && Exclusive(b)
  {
    InitialConsistent(2, 100, 4);
    RunConsistent(Quiet, InitialBus(2, 100, 4), steps, b);
    QuietNeverDrainsBusy(InitialBus(2, 100, 4), steps, b);
  }

  lemma AppendOne(rule: Rule, b: Bus, steps: seq<Step>, mid: Bus, step: Step)
    requires Executes(rule, b, steps, mid) && Enabled(mid, step) && Permits(rule, mid, step)
    ensures Executes(rule, b, steps + [step], Apply(mid, step))
  {
    assert Executes(rule, Apply(mid, step), [], Apply(mid, step));
    Prepend(rule, mid, step, [], Apply(mid, step));
    Append(rule, b, steps, mid, [step] + [], Apply(mid, step));
    assert [step] + [] == [step];
  }

  lemma FinalizeInWindow(b: Bus)
    requires InWindow(b)
    ensures Enabled(b, Finalize(1))
    ensures var b' := Apply(b, Finalize(1));
            && b'.counter == 2 && b'.guard.maxDepth == 2
            && "s" in b'.sessions && b'.sessions["s"].owed == 1 && b'.sessions["s"].queue == [2]
  {}

  /** From an empty bus, a failed task creation makes jobs 2 and 3 of one session both submitted. */
  lemma FailedCreationIsReachable() returns (steps: seq<Step>, b: Bus)
    ensures Executes(Quiet, InitialBus(2, 100, 4), steps, b)
    ensures 2 in b.jobs && 3 in b.jobs && b.jobs[2].session == b.jobs[3].session == Some("s")
    ensures Live(b.jobs[2].status) && Live(b.jobs[3].status)
  {
    var before, mid := ReachOwedDrain();
    var create, submit := Drain("s", CreateFails), Submit("s", 0, Started);
    b := FailedCreationLeavesTwo(mid, "s", 0);
    Append(Quiet, InitialBus(2, 100, 4), before, mid, [create, submit], b);
    steps := before + [create, submit];
  }

  lemma TwoSteps(rule: Rule, b: Bus, first: Step, second: Step)
    requires Enabled(b, first) && Permits(rule, b, first)
    requires Enabled(Apply(b, first), second) && Permits(rule, Apply(b, first), second)
    ensures Executes(rule, b, [first, second], Apply(Apply(b, first), second))
  {
    var final := Apply(Apply(b, first), second);
    assert Executes(rule, final, [], final);
    Prepend(rule, Apply(b, first), second, [], final);
    Prepend(rule, b, first, [second], final);
    assert [first] + [second] == [first, second];
  }
}
