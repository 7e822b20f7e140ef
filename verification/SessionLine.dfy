/**
 Exactly when a session's jobs start in submission order. A submit looks at the busy job and
 not at the queue, and that is the whole condition: over every interleaving in which no
 drain runs into a busy session, order is lost by an accepted submit that starts past a
 non-empty queue and by nothing else, whatever is aborted and whatever dispatch fails.
 */
module SessionLine {
  import opened Common
  import opened SpawnGuards
  import opened SessionBus
  import opened SessionSolo

  predicate Increasing(q: seq<JobId>) {
    forall i, k :: 0 <= i < k < |q| ==> q[i] < q[k]
  }

  function AtGateNow(b: Bus, s: SessionId): seq<JobId>
    requires s in b.sessions
  {
    var current := b.sessions[s].current;
    if current.Some? && current.value in b.jobs && b.jobs[current.value].phase == AtGate then [current.value] else []
  }

  /** Jobs of the session in the order they started or will start. */
  function Pipeline(b: Bus, s: SessionId): seq<JobId>
    requires s in b.sessions
  {
    b.sessions[s].started + AtGateNow(b, s) + b.sessions[s].queue
  }

  ghost predicate LinedSession(b: Bus, s: SessionId)
    requires s in b.sessions
  {
    Increasing(Pipeline(b, s)) && forall j :: j in Pipeline(b, s) ==> j <= b.counter
  }

  /** Every session's jobs have started, and will start, in the order of their ids. */
  ghost predicate Lined(b: Bus) { forall s :: s in b.sessions ==> LinedSession(b, s) }

  /** An accepted submit that starts at once although older jobs are parked. */
  predicate StartsPastQueue(b: Bus, step: Step) {
    && step.Submit? && step.outcome == Started && step.s in b.sessions
    && b.guard.PreCheck(b.counter + 1, 1, step.estimate).Ok?
    && !Busy(b, step.s) && b.sessions[step.s].queue != []
  }

  // ---- Sequences ----

  lemma {:induction false} WithoutIncreasing(prefix: seq<JobId>, q: seq<JobId>, j: JobId)
    requires Increasing(prefix + q)
    ensures Increasing(prefix + Without(q, j))
    decreases |q|
  {
    if q != [] {
      assert q == [q[0]] + q[1..];
      if q[0] == j {
        DropIncreasing(prefix, q[0], q[1..]);
        WithoutIncreasing(prefix, q[1..], j);
      } else {
        assert prefix + q == (prefix + [q[0]]) + q[1..];
        WithoutIncreasing(prefix + [q[0]], q[1..], j);
        assert prefix + Without(q, j) == (prefix + [q[0]]) + Without(q[1..], j);
      }
    }
  }

  lemma DropIncreasing(a: seq<JobId>, x: JobId, c: seq<JobId>)
    requires Increasing(a + ([x] + c))
    ensures Increasing(a + c)
  {
    var all, less := a + ([x] + c), a + c;
    assert forall i :: 0 <= i < |less| ==> less[i] == all[if i < |a| then i else i + 1];
  }

  lemma Extend(q: seq<JobId>, j: JobId)
    requires Increasing(q) && forall x :: x in q ==> x < j
    ensures Increasing(q + [j])
  {
    forall i, k | 0 <= i < k < |q + [j]|
      ensures (q + [j])[i] < (q + [j])[k]
    {
      assert q[i] in q;
    }
  }

  // ---- One session ----

  /** The session keeps its pipeline, at a counter that has not gone back. */
  lemma SameLine(b: Bus, b': Bus, s: SessionId)
    requires s in b.sessions && s in b'.sessions && LinedSession(b, s)
    requires Pipeline(b', s) == Pipeline(b, s) && b'.counter >= b.counter
    ensures LinedSession(b', s)
  {}

  /** The newest job joins the end of the line. */
  lemma LongerLine(b: Bus, b': Bus, s: SessionId)
    requires s in b.sessions && s in b'.sessions && LinedSession(b, s)
    requires b'.counter == b.counter + 1 && Pipeline(b', s) == Pipeline(b, s) + [b.counter + 1]
    ensures LinedSession(b', s)
  {
    Extend(Pipeline(b, s), b.counter + 1);
  }

  /** A job leaves the line. */
  lemma ShorterLine(b: Bus, b': Bus, s: SessionId, a: seq<JobId>, x: JobId, c: seq<JobId>)
    requires s in b.sessions && s in b'.sessions && LinedSession(b, s) && b'.counter == b.counter
    requires Pipeline(b, s) == a + ([x] + c) && Pipeline(b', s) == a + c
    ensures LinedSession(b', s)
  {
    DropIncreasing(a, x, c);
    forall y | y in a + c ensures y in a + ([x] + c) {}
  }

  lemma NotBusyNotAtGate(b: Bus, s: SessionId)
    requires s in b.sessions && !Busy(b, s)
    requires forall j :: j in b.jobs ==> PhaseMatchesStatus(b.jobs[j])
    ensures AtGateNow(b, s) == []
  {}

  /** Sessions other than `s` keep their lines when only jobs of `s`, or none, are touched. */
  lemma OtherLines(b: Bus, b': Bus, j: JobId, s: Option<SessionId>)
    requires Lined(b) && CurrentHasTask(b) && b'.counter >= b.counter && b'.sessions.Keys == b.sessions.Keys
    requires forall x :: x in b.jobs && x != j ==> x in b'.jobs && b'.jobs[x] == b.jobs[x]
    requires j in b.jobs ==> b.jobs[j].session == s
    requires forall t :: t in b.sessions && Some(t) != s ==>
                           && b'.sessions[t].started == b.sessions[t].started
                           && b'.sessions[t].queue == b.sessions[t].queue
                           && b'.sessions[t].current == b.sessions[t].current
    requires s.Some? ==> s.value in b.sessions
    ensures Lined(b') <==> (s.Some? ==> LinedSession(b', s.value))
  {
    forall t | t in b.sessions && Some(t) != s ensures LinedSession(b', t) {
      assert LinedSession(b, t);
      assert Pipeline(b', t) == Pipeline(b, t);
      SameLine(b, b', t);
    }
  }

  // ---- Submit ----

  lemma StartLineIff(b: Bus, mid: Bus, s: SessionId)
    requires s in b.sessions && LinedSession(b, s) && AtGateNow(b, s) == []
    requires mid.jobs == b.jobs && mid.sessions == b.sessions && mid.counter == b.counter + 1
    ensures LinedSession(Dispatch(mid, s, b.counter + 1, Started), s) <==> b.sessions[s].queue == []
  {
    var n, b' := b.counter + 1, Dispatch(mid, s, b.counter + 1, Started);
    var started, queue := b.sessions[s].started, b.sessions[s].queue;
    if queue == [] {
      assert Pipeline(b', s) == Pipeline(b, s) + [n];
      LongerLine(b, b', s);
    } else {
      var line := Pipeline(b', s);
      assert line[|started|] == n && line[|started| + 1] == queue[0];
      assert Pipeline(b, s)[|started|] == queue[0] && queue[0] in Pipeline(b, s);
    }
  }

  lemma SubmitLineIff(b: Bus, s: SessionId, estimate: nat, outcome: DispatchOutcome)
    requires Lined(b) && CurrentHasTask(b) && s in b.sessions && b.counter + 1 !in b.jobs
    requires forall j :: j in b.jobs ==> PhaseMatchesStatus(b.jobs[j])
    ensures Lined(SubmitTask(b, s, estimate, outcome)) <==> !StartsPastQueue(b, Submit(s, estimate, outcome))
  {
    var b' := SubmitTask(b, s, estimate, outcome);
    SubmitShape(b, s, estimate, outcome);
    OtherLines(b, b', b.counter + 1, Some(s));
    SubmitSessionLineIff(b, s, estimate, outcome);
  }

  lemma SubmitSessionLineIff(b: Bus, s: SessionId, estimate: nat, outcome: DispatchOutcome)
    requires s in b.sessions && LinedSession(b, s) && b.counter + 1 !in b.jobs
    requires forall j :: j in b.jobs ==> PhaseMatchesStatus(b.jobs[j])
    ensures LinedSession(SubmitTask(b, s, estimate, outcome), s) <==>
            !StartsPastQueue(b, Submit(s, estimate, outcome))
  {
    var n := b.counter + 1;
    var checked := b.guard.PreCheck(n, 1, estimate);
    if checked.Err? {
      SameLine(b, b.(counter := n), s);
    } else {
      var mid := b.(counter := n, guard := checked.value);
      if Busy(b, s) {
        ParkedLine(b, mid, s);
      } else {
        NotBusyNotAtGate(b, s);
        if outcome == Started {
          StartLineIff(b, mid, s);
        } else {
          FailedLine(b, mid, s, outcome);
        }
      }
    }
  }

  lemma ParkedLine(b: Bus, mid: Bus, s: SessionId)
    requires s in b.sessions && LinedSession(b, s) && b.counter + 1 !in b.jobs && Busy(b, s)
    requires mid.jobs == b.jobs && mid.sessions == b.sessions && mid.counter == b.counter + 1
    ensures LinedSession(Parked(mid, s, b.counter + 1), s)
  {
    var b' := Parked(mid, s, b.counter + 1);
    assert Pipeline(b', s) == Pipeline(b, s) + [b.counter + 1];
    LongerLine(b, b', s);
  }

  lemma FailedLine(b: Bus, mid: Bus, s: SessionId, outcome: DispatchOutcome)
    requires s in b.sessions && LinedSession(b, s) && b.counter + 1 !in b.jobs && AtGateNow(b, s) == []
    requires mid.jobs == b.jobs && mid.sessions == b.sessions && mid.counter == b.counter + 1 && outcome != Started
    ensures LinedSession(Dispatch(mid, s, b.counter + 1, outcome), s)
  {
    SameLine(b, Dispatch(mid, s, b.counter + 1, outcome), s);
  }

  // ---- Drain ----

  lemma HeadLine(b: Bus, s: SessionId, outcome: DispatchOutcome)
    requires Lined(b) && CurrentHasTask(b) && s in b.sessions && b.sessions[s].queue != [] && b.sessions[s].owed > 0
    requires QueuedHere(b, s, b.sessions[s].queue[0])
    requires outcome != TrimFails ==> AtGateNow(b, s) == []
    ensures Lined(Dispatch(Popped(b, s), s, b.sessions[s].queue[0], outcome))
  {
    var head := b.sessions[s].queue[0];
    var b' := Dispatch(Popped(b, s), s, head, outcome);
    OtherLines(b, b', head, Some(s));
    if outcome == Started {
      StartedHeadLine(b, s);
    } else {
      FailedHeadLine(b, s, outcome);
    }
  }

  lemma StartedHeadLine(b: Bus, s: SessionId)
    requires s in b.sessions && LinedSession(b, s) && b.sessions[s].queue != [] && b.sessions[s].owed > 0
    requires AtGateNow(b, s) == []
    ensures LinedSession(Dispatch(Popped(b, s), s, b.sessions[s].queue[0], Started), s)
  {
    var b' := Dispatch(Popped(b, s), s, b.sessions[s].queue[0], Started);
    assert Pipeline(b', s) == Pipeline(b, s);
    SameLine(b, b', s);
  }

  lemma FailedHeadLine(b: Bus, s: SessionId, outcome: DispatchOutcome)
    requires s in b.sessions && LinedSession(b, s) && b.sessions[s].queue != [] && b.sessions[s].owed > 0
    requires outcome == TrimFails || (outcome == CreateFails && AtGateNow(b, s) == [])
    ensures LinedSession(Dispatch(Popped(b, s), s, b.sessions[s].queue[0], outcome), s)
  {
    var head, queue := b.sessions[s].queue[0], b.sessions[s].queue;
    var before := b.sessions[s].started + AtGateNow(b, s);
    var b' := Dispatch(Popped(b, s), s, head, outcome);
    assert queue == [head] + queue[1..];
    assert Pipeline(b', s) == before + queue[1..];
    ShorterLine(b, b', s, before, head, queue[1..]);
  }

  lemma DrainLine(b: Bus, s: SessionId, outcome: DispatchOutcome)
    requires Consistent(b) && Lined(b) && CurrentHasTask(b) && Enabled(b, Drain(s, outcome))
    requires !DrainsBusy(b, Drain(s, outcome))
    ensures Lined(Apply(b, Drain(s, outcome)))
  {
    if b.sessions[s].queue != [] {
      DrainTakesHead(b, s, outcome);
      if !Busy(b, s) {
        forall j | j in b.jobs ensures PhaseMatchesStatus(b.jobs[j]) { assert JobOk(b, j); }
        NotBusyNotAtGate(b, s);
      }
      HeadLine(b, s, outcome);
    } else {
      FreshIsNowhere(b);
      EmptyDrainLine(b, s, outcome);
    }
  }

  lemma EmptyDrainLine(b: Bus, s: SessionId, outcome: DispatchOutcome)
    requires Lined(b) && CurrentHasTask(b) && Enabled(b, Drain(s, outcome)) && b.sessions[s].queue == []
    requires b.counter + 1 !in b.jobs
    ensures Lined(Apply(b, Drain(s, outcome)))
  {
    var b' := Apply(b, Drain(s, outcome));
    OtherLines(b, b', b.counter + 1, None);
  }

  // ---- Other steps ----

  predicate IsTaskStep(step: Step) {
    step.PassGate? || step.Publish? || step.Finalize? || step.CancelTask? || step.MarkAborted? || step.GiveUp?
  }

  lemma TaskStepFrame(b: Bus, step: Step)
    requires IsTaskStep(step) && Enabled(b, step) && JobOk(b, step.j)
    ensures var b', s := Apply(b, step), b.jobs[step.j].session;
            && b'.counter == b.counter && b'.jobs.Keys == b.jobs.Keys && b'.sessions.Keys == b.sessions.Keys
            && b'.jobs[step.j].status != Queued
            && (forall x :: x in b.jobs && x != step.j ==> b'.jobs[x] == b.jobs[x])
            && (forall t :: t in b.sessions && Some(t) != s ==> b'.sessions[t] == b.sessions[t])
            && (forall t :: t in b.sessions ==> b'.sessions[t].queue == b.sessions[t].queue)
  {}

  /** Steps on one task: only a cancellation at the gate takes the job out of the line. */
  lemma TaskLine(b: Bus, step: Step)
    requires Solo(b) && Lined(b) && CurrentHasTask(b) && Enabled(b, step) && IsTaskStep(step)
    requires JobOk(b, step.j)
    ensures Lined(Apply(b, step))
  {
    var s := b.jobs[step.j].session;
    TaskStepFrame(b, step);
    OtherLines(b, Apply(b, step), step.j, s);
    if s.Some? {
      TaskSessionLine(b, step, s.value);
    }
  }

  lemma TaskSessionLine(b: Bus, step: Step, s: SessionId)
    requires Solo(b) && CurrentHasTask(b) && s in b.sessions && LinedSession(b, s) && Enabled(b, step)
    requires IsTaskStep(step) && b.jobs[step.j].session == Some(s) && PhaseMatchesStatus(b.jobs[step.j])
    ensures LinedSession(Apply(b, step), s)
  {
    var b' := Apply(b, step);
    if step.CancelTask? {
      assert LiveTask(b.jobs[step.j]);
      var started, queue := b.sessions[s].started, b.sessions[s].queue;
      assert Pipeline(b, s) == started + ([step.j] + queue) && Pipeline(b', s) == started + queue;
      ShorterLine(b, b', s, started, step.j, queue);
    } else {
      assert step.PassGate? ==> LiveTask(b.jobs[step.j]);
      assert Pipeline(b', s) == Pipeline(b, s);
      SameLine(b, b', s);
    }
  }

  lemma ReconcileLine(b: Bus, s: SessionId)
    requires Lined(b) && CurrentHasTask(b) && Enabled(b, Reconcile(s))
    ensures Lined(Apply(b, Reconcile(s)))
  {
    var b', c := Apply(b, Reconcile(s)), b.sessions[s].current.value;
    OtherLines(b, b', c, Some(s));
    assert LinedSession(b, s) && Pipeline(b', s) == Pipeline(b, s);
    SameLine(b, b', s);
  }

  lemma AbortLine(b: Bus, j: JobId)
    requires Consistent(b) && Lined(b) && CurrentHasTask(b) && Enabled(b, AbortIdle(j))
    ensures Lined(Apply(b, AbortIdle(j)))
  {
    var b', s := Apply(b, AbortIdle(j)), b.jobs[j].session;
    assert JobOk(b, j);
    PurgeIsLocal(b, j);
    OtherLines(b, b', j, s);
    if s.Some? {
      AbortSessionLine(b, j, s.value);
    }
  }

  lemma AbortSessionLine(b: Bus, j: JobId, s: SessionId)
    requires s in b.sessions && LinedSession(b, s) && Enabled(b, AbortIdle(j)) && PhaseMatchesStatus(b.jobs[j])
    ensures LinedSession(Apply(b, AbortIdle(j)), s)
  {
    var b', session := Apply(b, AbortIdle(j)), b.sessions[s];
    WithoutMembers(session.queue, j);
    WithoutIncreasing(session.started + AtGateNow(b, s), session.queue, j);
    assert AtGateNow(b', s) == AtGateNow(b, s);
    assert forall x :: x in Pipeline(b', s) ==> x in Pipeline(b, s);
  }

  lemma RestLine(b: Bus, step: Step)
    requires Lined(b) && CurrentHasTask(b) && Enabled(b, step) && b.counter + 1 !in b.jobs
    requires step.SubmitOneShot? || step.PopReady?
    ensures Lined(Apply(b, step))
  {
    OtherLines(b, Apply(b, step), b.counter + 1, None);
  }

  lemma CreateLine(b: Bus, s: SessionId)
    requires Lined(b) && s !in b.sessions
    ensures Lined(Apply(b, CreateSession(s)))
  {
    var b' := Apply(b, CreateSession(s));
    forall t | t in b.sessions ensures LinedSession(b', t) {
      SameLine(b, b', t);
    }
  }

  /** In a consistent, exclusive, ordered state, a step that is no drain into a busy session keeps
      the order if and only if it is no accepted submit that starts past a queue. */
  lemma StepLinedIff(b: Bus, step: Step)
    requires Consistent(b) && Solo(b) && CurrentHasTask(b) && Lined(b) && Enabled(b, step) && !DrainsBusy(b, step)
    ensures Lined(Apply(b, step)) <==> !StartsPastQueue(b, step)
  {
    FreshIsNowhere(b);
    match step
    case Submit(s, estimate, outcome) =>
      forall j | j in b.jobs ensures PhaseMatchesStatus(b.jobs[j]) { assert JobOk(b, j); }
      SubmitLineIff(b, s, estimate, outcome);
    case Drain(s, outcome) => DrainLine(b, s, outcome);
    case AbortIdle(j) => AbortLine(b, j);
    case Reconcile(s) => ReconcileLine(b, s);
    case SubmitOneShot(_, _, _) => RestLine(b, step);
    case CreateSession(s) => CreateLine(b, s);
    case PopReady(_) => RestLine(b, step);
    case _ =>
      assert JobOk(b, step.j);
      TaskLine(b, step);
  }

  // ---- Whole runs ----

  ghost predicate AlwaysLined(b: Bus, steps: seq<Step>)
    decreases |steps|
  {
    Lined(b) && (steps == [] || (Enabled(b, steps[0]) && AlwaysLined(Apply(b, steps[0]), steps[1..])))
  }

  predicate NeverStartsPastQueue(b: Bus, steps: seq<Step>)
    decreases |steps|
  {
    steps == []
    || (Enabled(b, steps[0]) && !StartsPastQueue(b, steps[0]) && NeverStartsPastQueue(Apply(b, steps[0]), steps[1..]))
  }

  /** Over every run in which no drain runs into a busy session, every session's line stays in
      submission order if and only if no accepted submit starts past a queue. */
  lemma {:induction false} LinedThroughoutIff(rule: Rule, b: Bus, steps: seq<Step>, final: Bus)
    requires Consistent(b) && Solo(b) && CurrentHasTask(b) && Lined(b) && Executes(rule, b, steps, final)
    requires NeverDrainsBusy(b, steps)
    ensures AlwaysLined(b, steps) <==> NeverStartsPastQueue(b, steps)
    ensures AlwaysLined(b, steps) ==> Lined(final)
    decreases |steps|
  {
    if steps != [] {
      var b' := Apply(b, steps[0]);
      StepLinedIff(b, steps[0]);
      if Lined(b') {
        StepConsistent(b, steps[0]);
        StepSoloIff(b, steps[0]);
        LinedThroughoutIff(rule, b', steps[1..], final);
      }
    }
  }

  /** From an empty bus. */
  lemma OrderExactly(maxDepth: int, maxTokens: int, maxParallel: int, steps: seq<Step>, b: Bus)
    requires Executes(AnyStep, InitialBus(maxDepth, maxTokens, maxParallel), steps, b)
    requires NeverDrainsBusy(InitialBus(maxDepth, maxTokens, maxParallel), steps)
    ensures var init := InitialBus(maxDepth, maxTokens, maxParallel);
            AlwaysLined(init, steps) <==> NeverStartsPastQueue(init, steps)
  {
    InitialConsistent(maxDepth, maxTokens, maxParallel);
    LinedThroughoutIff(AnyStep, InitialBus(maxDepth, maxTokens, maxParallel), steps, b);
  }
}
