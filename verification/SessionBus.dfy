/**
 The job and session protocol of the agent bus, as a transition system.

 A step is the code between two suspension points. Three steps make up a job's
 finalisation: `Publish` (status written, result posted), `Finalize` (guard released,
 `current` cleared) and `Drain` (next queued task dispatched). Other coroutines can run
 between them, and between a `Reconcile` and the `Drain` it owes. The time from the first
 of these steps to the last is the session's finalisation window.
 */
module SessionBus {
  import opened Common
  import opened SpawnGuards

  type SessionId = string

  datatype Status = Queued | Submitted | Running | Completed | Failed | Aborted

  predicate Terminal(st: Status) { st == Completed || st == Failed || st == Aborted }

  predicate Live(st: Status) { st == Submitted || st == Running }

  /** Where a job's asyncio task is: none yet, at the concurrency gate, inside its `try`,
      past the status write but before `finally` has released, or done with it. */
  datatype Phase = NoTask | AtGate | InRun | Published | Ended

  /** `posted` records that the job's result was put into its session's mailbox. */
  datatype Job = Job(session: Option<SessionId>, status: Status, phase: Phase, posted: bool)

  /** `owed` counts drains that are still to come; `started` is the order in which jobs passed the gate. */
  datatype Session = Session(
    current: Option<JobId>,
    queue: seq<JobId>,
    owed: nat,
    mailbox: seq<JobId>,
    started: seq<JobId>)

  datatype Bus = Bus(
    jobs: map<JobId, Job>,
    sessions: map<SessionId, Session>,
    counter: nat,
    guard: Guard,
    collected: set<JobId>)

  /** How a dispatch goes up to its first suspension: it starts the task, the history
      trimmer raises before anything is changed, or the task cannot be created. */
  datatype DispatchOutcome = Started | TrimFails | CreateFails

  datatype Step =
    | CreateSession(s: SessionId)
    | Submit(s: SessionId, estimate: nat, outcome: DispatchOutcome)
    | SubmitOneShot(depth: nat, estimate: nat, created: bool)
    | PassGate(j: JobId)
    | Publish(j: JobId, result: Status)
    | Finalize(j: JobId)
    | Drain(s: SessionId, outcome: DispatchOutcome)
    | AbortIdle(j: JobId)
    | CancelTask(j: JobId)
    | MarkAborted(j: JobId)
    | GiveUp(j: JobId)
    | Reconcile(s: SessionId)
    | PopReady(s: SessionId)

  function InitialBus(maxDepth: int, maxTokens: int, maxParallel: int): Bus {
    Bus(map[], map[], 0, InitialGuard(maxDepth, maxTokens, maxParallel), {})
  }

  // ---- Step functions ----

  predicate Busy(b: Bus, s: SessionId)
    requires s in b.sessions
  {
    var current := b.sessions[s].current;
    current.Some? && current.value in b.jobs && Live(b.jobs[current.value].status)
  }

  /** Dispatch of job `j`, whether it is fresh or already registered as queued. */
  function Dispatch(b: Bus, s: SessionId, j: JobId, outcome: DispatchOutcome): Bus
    requires s in b.sessions
  {
    var session := b.sessions[s];
    match outcome
    case Started =>
      b.(jobs := b.jobs[j := Job(Some(s), Submitted, AtGate, false)],
         sessions := b.sessions[s := session.(current := Some(j))])
    case TrimFails =>
      b.(guard := b.guard.Release(j))
    case CreateFails =>
      b.(jobs := if j in b.jobs then b.jobs[j := b.jobs[j].(status := Submitted)] else b.jobs,
         sessions := b.sessions[s := session.(current := None)],
         guard := b.guard.Release(j))
  }

  /** Job `j` joins the queue of its busy session. */
  function Parked(b: Bus, s: SessionId, j: JobId): Bus
    requires s in b.sessions
  {
    b.(jobs := b.jobs[j := Job(Some(s), Queued, NoTask, false)],
       sessions := b.sessions[s := b.sessions[s].(queue := b.sessions[s].queue + [j])])
  }

  function SubmitTask(b: Bus, s: SessionId, estimate: nat, outcome: DispatchOutcome): Bus
    requires s in b.sessions
  {
    var j := b.counter + 1;
    var b1 := b.(counter := j);
    var checked := b.guard.PreCheck(j, 1, estimate);
    if checked.Err? then b1
    else
      var b2 := b1.(guard := checked.value);
      if Busy(b, s) then Parked(b2, s, j) else Dispatch(b2, s, j, outcome)
  }

  /** A job without a session; when its task cannot be created, its entry and reservation go again. */
  function OneShot(b: Bus, depth: nat, estimate: nat, created: bool): Bus {
    var j := b.counter + 1;
    var b1 := b.(counter := j);
    var checked := b.guard.PreCheck(j, depth + 1, estimate);
    if checked.Err? then b1
    else if !created then b1.(guard := checked.value.Release(j), jobs := b.jobs - {j})
    else b1.(guard := checked.value, jobs := b.jobs[j := Job(None, Submitted, AtGate, false)])
  }

  function DrainQueue(b: Bus, s: SessionId, outcome: DispatchOutcome): Bus
    requires s in b.sessions
    decreases |b.sessions[s].queue|
  {
    var session := b.sessions[s];
    if session.queue == [] then b
    else
      var next := session.queue[0];
      var b1 := b.(sessions := b.sessions[s := session.(queue := session.queue[1..])]);
      if next in b.jobs && b.jobs[next].status == Aborted then DrainQueue(b1, s, outcome)
      else Dispatch(b1, s, next, outcome)
  }

  function Without(q: seq<JobId>, j: JobId): seq<JobId> {
    if q == [] then []
    else if q[0] == j then Without(q[1..], j)
    else [q[0]] + Without(q[1..], j)
  }

  function PurgeQueued(b: Bus, j: JobId): Bus {
    b.(sessions := map s | s in b.sessions :: b.sessions[s].(queue := Without(b.sessions[s].queue, j)))
  }

  /** Release and, unless the job already ended, mark it aborted. */
  function MarkJobAborted(b: Bus, j: JobId): Bus
    requires j in b.jobs
  {
    var b1 := b.(guard := b.guard.Release(j));
    if Terminal(b.jobs[j].status) then b1
    else b1.(jobs := b.jobs[j := b.jobs[j].(status := Aborted)])
  }

  function ClearCurrent(session: Session, j: JobId): Session {
    if session.current == Some(j) then session.(current := None) else session
  }

  predicate Enabled(b: Bus, step: Step) {
    match step
    case CreateSession(s) => s !in b.sessions
    case Submit(s, _, _) => s in b.sessions
    case SubmitOneShot(_, _, _) => true
    case PassGate(j) => j in b.jobs && b.jobs[j].phase == AtGate && b.guard.free > 0
    case Publish(j, result) => j in b.jobs && b.jobs[j].phase == InRun && Terminal(result)
                               && (b.jobs[j].session.Some? ==> b.jobs[j].session.value in b.sessions)
    case Finalize(j) => j in b.jobs && b.jobs[j].phase == Published
                        && (b.jobs[j].session.Some? ==> b.jobs[j].session.value in b.sessions)
    case Drain(s, _) => s in b.sessions && b.sessions[s].owed > 0
    case AbortIdle(j) => j in b.jobs && !Terminal(b.jobs[j].status)
                         && (b.jobs[j].status == Queued || b.jobs[j].phase == NoTask)
    case CancelTask(j) => j in b.jobs && b.jobs[j].phase == AtGate
    case MarkAborted(j) => j in b.jobs && !Terminal(b.jobs[j].status) && b.jobs[j].phase == Ended
    case GiveUp(j) => j in b.jobs && b.jobs[j].phase == Ended && b.jobs[j].session.Some?
                      && b.jobs[j].session.value in b.sessions
    case Reconcile(s) => s in b.sessions && b.sessions[s].current.Some?
                         && b.sessions[s].current.value in b.jobs
                         && b.jobs[b.sessions[s].current.value].phase == Ended
    case PopReady(s) => s in b.sessions && b.sessions[s].mailbox != []
  }

  function Apply(b: Bus, step: Step): Bus
    requires Enabled(b, step)
  {
    match step
    case CreateSession(s) => b.(sessions := b.sessions[s := Session(None, [], 0, [], [])])
    case Submit(s, estimate, outcome) => SubmitTask(b, s, estimate, outcome)
    case SubmitOneShot(depth, estimate, created) => OneShot(b, depth, estimate, created)
    case PassGate(j) =>
      var job := b.jobs[j];
      var b1 := b.(guard := b.guard.AcquireSlot(j), jobs := b.jobs[j := job.(status := Running, phase := InRun)]);
      if job.session.Some? && job.session.value in b.sessions then
        var session := b.sessions[job.session.value];
        b1.(sessions := b.sessions[job.session.value := session.(started := session.started + [j])])
      else b1
    case Publish(j, result) =>
      var job := b.jobs[j];
      if job.session.None? then b.(jobs := b.jobs[j := job.(status := result, phase := Published)])
      else
        var session := b.sessions[job.session.value];
        b.(jobs := b.jobs[j := job.(status := result, phase := Published, posted := true)],
           sessions := b.sessions[job.session.value := session.(mailbox := session.mailbox + [j])])
    case Finalize(j) =>
      var job := b.jobs[j];
      var b1 := b.(guard := b.guard.Release(j), jobs := b.jobs[j := job.(phase := Ended)]);
      if job.session.None? then b1
      else
        var session := b.sessions[job.session.value];
        b1.(sessions := b.sessions[job.session.value := ClearCurrent(session, j).(owed := session.owed + 1)])
    case Drain(s, outcome) =>
      DrainQueue(b.(sessions := b.sessions[s := b.sessions[s].(owed := b.sessions[s].owed - 1)]), s, outcome)
    case AbortIdle(j) => MarkJobAborted(PurgeQueued(b, j), j)
    case CancelTask(j) => b.(jobs := b.jobs[j := b.jobs[j].(phase := Ended)])
    case MarkAborted(j) => MarkJobAborted(b, j)
    case GiveUp(j) =>
      var s := b.jobs[j].session.value;
      var b1 := MarkJobAborted(b, j);
      b1.(sessions := b.sessions[s := ClearCurrent(b.sessions[s], j)])
    case Reconcile(s) =>
      var session := b.sessions[s];
      var j := session.current.value;
      var job := b.jobs[j];
      var status := if Terminal(job.status) then job.status else Aborted;
      b.(guard := b.guard.Release(j),
         jobs := b.jobs[j := job.(status := status, posted := true)],
         sessions := b.sessions[s := session.(current := None, owed := session.owed + 1,
         mailbox := if j in session.mailbox then session.mailbox else session.mailbox + [j])])
    case PopReady(s) =>
      var session := b.sessions[s];
      b.(sessions := b.sessions[s := session.(mailbox := session.mailbox[1..])],
         collected := b.collected + {session.mailbox[0]})
  }

  // ---- Runs ----

  /** The session is between a status write and the drain that follows it. */
  ghost predicate Window(b: Bus, s: SessionId) {
    && s in b.sessions
    && (b.sessions[s].owed > 0
        || exists j :: j in b.jobs && b.jobs[j].session == Some(s) && b.jobs[j].phase == Published)
  }

  /** Which steps a run may take. `Quiet`: no submit lands in its session's window.
      `Atomic`: while any window is open, only the steps that close it run.
      `Fifo`: quiet, no dispatch fails, and no session task is cancelled at the gate. */
  datatype Rule = AnyStep | Quiet | Atomic | Fifo

  ghost predicate Permits(rule: Rule, b: Bus, step: Step) {
    match rule
    case AnyStep => true
    case Quiet => step.Submit? ==> !Window(b, step.s)
    case Atomic => (exists s :: Window(b, s)) ==> step.Finalize? || step.Drain?
    case Fifo =>
      && (step.Submit? ==> !Window(b, step.s) && step.outcome == Started)
      && (step.Drain? ==> step.outcome == Started)
      && (step.CancelTask? ==> step.j in b.jobs && b.jobs[step.j].session.None?)
  }

  ghost predicate Executes(rule: Rule, b: Bus, steps: seq<Step>, final: Bus)
    decreases |steps|
  {
    if steps == [] then final == b
    else Enabled(b, steps[0]) && Permits(rule, b, steps[0])
         && Executes(rule, Apply(b, steps[0]), steps[1..], final)
  }

  // ---- The invariant of every run ----

  predicate NoDuplicates(q: seq<JobId>) {
    forall i, k :: 0 <= i < k < |q| ==> q[i] != q[k]
  }

  predicate InFlight(p: Phase) { p == AtGate || p == InRun || p == Published }

  predicate PhaseMatchesStatus(job: Job) {
    match job.phase
    case NoTask => job.status == Queued || job.status == Submitted || job.status == Aborted
    case AtGate => job.status == Submitted
    case InRun => job.status == Running
    case Published => Terminal(job.status)
    case Ended => Terminal(job.status) || job.status == Submitted
  }

  predicate MayHold(b: Bus, j: JobId)
    requires j in b.jobs
  {
    var job := b.jobs[j];
    || InFlight(job.phase)
    || (job.phase == Ended && job.status == Submitted)
    || (job.status == Queued && job.phase == NoTask && job.session.Some?
        && job.session.value in b.sessions && j in b.sessions[job.session.value].queue)
  }

  predicate GuardAgrees(b: Bus, j: JobId)
    requires j in b.jobs
  {
    var active := b.guard.active;
    var phase := b.jobs[j].phase;
    && (InFlight(phase) ==> j in active)
    && (j in active ==> MayHold(b, j) && (active[j].acquired <==> phase == InRun || phase == Published))
  }

  predicate PostedOnce(b: Bus, j: JobId)
    requires j in b.jobs
  {
    var job := b.jobs[j];
    && (job.posted ==>
          && job.session.Some? && job.session.value in b.sessions
          && (job.phase == Published
              || (job.phase == Ended && b.sessions[job.session.value].current != Some(j))))
    && (job.phase == Published && job.session.Some? ==> job.posted)
  }

  predicate JobOk(b: Bus, j: JobId)
    requires j in b.jobs
  {
    && 1 <= j <= b.counter
    && (b.jobs[j].session.Some? ==> b.jobs[j].session.value in b.sessions)
    && PhaseMatchesStatus(b.jobs[j])
    && GuardAgrees(b, j)
    && PostedOnce(b, j)
  }

  predicate QueuedHere(b: Bus, s: SessionId, j: JobId) {
    && j in b.jobs && b.jobs[j].session == Some(s)
    && b.jobs[j].status == Queued && b.jobs[j].phase == NoTask && j in b.guard.active
  }

  predicate PostedHere(b: Bus, s: SessionId, j: JobId) {
    j in b.jobs && b.jobs[j].session == Some(s) && b.jobs[j].posted
  }

  predicate SessionOk(b: Bus, s: SessionId)
    requires s in b.sessions
  {
    var session := b.sessions[s];
    && NoDuplicates(session.queue)
    && (forall q :: q in session.queue ==> QueuedHere(b, s, q))
    && (session.current.Some? ==>
          session.current.value in b.jobs && b.jobs[session.current.value].session == Some(s))
    && NoDuplicates(session.mailbox)
    && (forall m :: m in session.mailbox ==> PostedHere(b, s, m) && m !in b.collected)
  }

  ghost predicate Consistent(b: Bus) {
    && (forall j :: j in b.jobs ==> JobOk(b, j))
    && (forall s :: s in b.sessions ==> SessionOk(b, s))
    && (forall j :: j in b.collected ==> j in b.jobs && b.jobs[j].posted)
    && (forall j :: j in b.guard.active ==> j in b.jobs)
    && Balanced(b.guard) && WithinBudget(b.guard)
  }

  // ---- Preservation, step by step ----

  lemma {:induction false} WithoutMembers(q: seq<JobId>, j: JobId)
    ensures forall x :: x in Without(q, j) <==> x in q && x != j
  {
    if q != [] {
      WithoutMembers(q[1..], j);
      assert q == [q[0]] + q[1..];
    }
  }

  lemma {:induction false} WithoutKeepsDistinct(q: seq<JobId>, j: JobId)
    requires NoDuplicates(q)
    ensures NoDuplicates(Without(q, j))
  {
    if q != [] {
      var rest := Without(q[1..], j);
      WithoutKeepsDistinct(q[1..], j);
      WithoutMembers(q[1..], j);
      if q[0] != j {
        assert q[0] !in q[1..];
        forall i, k | 0 <= i < k < |[q[0]] + rest|
          ensures ([q[0]] + rest)[i] != ([q[0]] + rest)[k]
        {
          if i == 0 {
            assert rest[k - 1] in rest;
          }
        }
      }
    }
  }

  lemma {:induction false} WithoutAbsent(q: seq<JobId>, j: JobId)
    requires j !in q
    ensures Without(q, j) == q
  {
    if q != [] {
      WithoutAbsent(q[1..], j);
    }
  }

  lemma InitialConsistent(maxDepth: int, maxTokens: int, maxParallel: int)
    ensures Consistent(InitialBus(maxDepth, maxTokens, maxParallel))
  {
    InitialBalanced(maxDepth, maxTokens, maxParallel);
  }

  /** Guard `h` differs from `g` at most in job `j`'s reservation. */
  ghost predicate SameExceptFor(g: Guard, h: Guard, j: JobId) {
    forall x :: x != j ==> (x in h.active <==> x in g.active) && (x in h.active ==> h.active[x] == g.active[x])
  }

  lemma GuardSteps(g: Guard, j: JobId)
    requires Balanced(g) && WithinBudget(g)
    ensures SameExceptFor(g, g.Release(j), j) && j !in g.Release(j).active
    ensures Balanced(g.Release(j)) && WithinBudget(g.Release(j))
  {
    ReleaseBalanced(g, j);
  }

  /**
   A step that touches one job `j`, at most one session `s` (the job's own) and job `j`'s
   reservation keeps the whole bus consistent as soon as `j` and `s` are fine afterwards.
   */
  lemma LocalStep(b: Bus, b': Bus, j: JobId, s: Option<SessionId>)
    requires Consistent(b)
    requires b'.counter >= b.counter && b'.collected == b.collected
    requires forall x :: x in b.jobs ==> x in b'.jobs
    requires forall x :: x in b'.jobs && x != j ==> x in b.jobs && b'.jobs[x] == b.jobs[x]
    requires j in b.jobs ==> b.jobs[j].session == s
    requires b'.sessions.Keys == b.sessions.Keys
    requires forall t :: t in b.sessions && Some(t) != s ==> b'.sessions[t] == b.sessions[t]
    requires SameExceptFor(b.guard, b'.guard, j) && Balanced(b'.guard) && WithinBudget(b'.guard)
    requires j in b'.guard.active ==> j in b'.jobs
    requires j in b'.jobs ==> JobOk(b', j)
    requires j in b.collected ==> b'.jobs[j].posted
    requires s.Some? ==>
               && s.value in b.sessions && SessionOk(b', s.value)
               && (forall x :: x != j ==>
                     (x in b'.sessions[s.value].queue <==> x in b.sessions[s.value].queue))
               && (b'.sessions[s.value].current == b.sessions[s.value].current || b'.sessions[s.value].current == None
                    || b'.sessions[s.value].current == Some(j))
    ensures Consistent(b')
  {
    forall x | x in b'.jobs
      ensures JobOk(b', x)
    {
      if x != j {
        assert JobOk(b, x);
      }
    }
    forall t | t in b'.sessions
      ensures SessionOk(b', t)
    {
      if Some(t) != s {
        assert SessionOk(b, t);
        forall q | q in b'.sessions[t].queue
          ensures QueuedHere(b', t, q)
        {
          assert QueuedHere(b, t, q);
        }
        forall m | m in b'.sessions[t].mailbox
          ensures PostedHere(b', t, m)
        {
          assert PostedHere(b, t, m);
        }
      }
    }
  }

  /** The session `s` itself, when `j` leaves or joins its queue and mailbox. */
  lemma LocalSession(b: Bus, b': Bus, j: JobId, s: SessionId)
    requires Consistent(b) && s in b.sessions && s in b'.sessions
    requires forall x :: x in b.jobs && x != j ==> x in b'.jobs && b'.jobs[x] == b.jobs[x]
    requires SameExceptFor(b.guard, b'.guard, j) && b'.collected == b.collected
    requires NoDuplicates(b'.sessions[s].queue) && NoDuplicates(b'.sessions[s].mailbox)
    requires forall x :: x in b'.sessions[s].queue && x != j ==> x in b.sessions[s].queue
    requires forall x :: x in b'.sessions[s].mailbox && x != j ==> x in b.sessions[s].mailbox
    requires j in b'.sessions[s].queue ==> QueuedHere(b', s, j)
    requires j in b'.sessions[s].mailbox ==> PostedHere(b', s, j) && j !in b.collected
    requires b'.sessions[s].current == b.sessions[s].current || b'.sessions[s].current == None
             || b'.sessions[s].current == Some(j)
    requires b'.sessions[s].current == Some(j) ==> j in b'.jobs && b'.jobs[j].session == Some(s)
    ensures SessionOk(b', s)
  {
    assert SessionOk(b, s);
    forall q | q in b'.sessions[s].queue
      ensures QueuedHere(b', s, q)
    {
      if q != j {
        assert QueuedHere(b, s, q);
      }
    }
    forall m | m in b'.sessions[s].mailbox
      ensures PostedHere(b', s, m) && m !in b'.collected
    {
      if m != j {
        assert PostedHere(b, s, m);
      }
    }
  }

  lemma NotInAnyQueue(b: Bus, j: JobId)
    requires Consistent(b) && (j in b.jobs ==> b.jobs[j].status != Queued || b.jobs[j].phase != NoTask)
    ensures forall t :: t in b.sessions ==> j !in b.sessions[t].queue
  {
    forall t | t in b.sessions
      ensures j !in b.sessions[t].queue
    {
      assert SessionOk(b, t);
      assert j in b.sessions[t].queue ==> QueuedHere(b, t, j);
    }
  }

  lemma FreshNotInMailbox(b: Bus, j: JobId)
    requires Consistent(b) && (j in b.jobs ==> !b.jobs[j].posted)
    ensures j !in b.collected
    ensures forall t :: t in b.sessions ==> j !in b.sessions[t].mailbox
  {
    forall t | t in b.sessions
      ensures j !in b.sessions[t].mailbox
    {
      assert SessionOk(b, t);
      assert j in b.sessions[t].mailbox ==> PostedHere(b, t, j);
    }
  }

  /**
   Dispatch, seen from the last consistent state `b`: in `mid`, job `j` is either fresh, with
   a reservation just made, or the head of the queue of `s`, just popped.
   */
  ghost predicate ReadyHere(b: Bus, mid: Bus, s: SessionId, j: JobId) {
    && Consistent(b) && s in b.sessions && s in mid.sessions
    && mid == b.(counter := mid.counter, guard := mid.guard, sessions := b.sessions[s := mid.sessions[s]])
    && mid.counter >= b.counter && 1 <= j <= mid.counter
    && SameExceptFor(b.guard, mid.guard, j) && Balanced(mid.guard) && WithinBudget(mid.guard)
    && j in mid.guard.active && !mid.guard.active[j].acquired
    && (j in b.jobs ==> b.jobs[j] == Job(Some(s), Queued, NoTask, false))
    && mid.sessions[s].mailbox == b.sessions[s].mailbox && mid.sessions[s].current == b.sessions[s].current
    && NoDuplicates(mid.sessions[s].queue) && j !in mid.sessions[s].queue
    && (forall x :: x != j ==> (x in mid.sessions[s].queue <==> x in b.sessions[s].queue))
  }

  lemma DispatchStarts(b: Bus, mid: Bus, s: SessionId, j: JobId)
    requires ReadyHere(b, mid, s, j)
    ensures Consistent(Dispatch(mid, s, j, Started))
  {
    var b' := Dispatch(mid, s, j, Started);
    FreshNotInMailbox(b, j);
    assert SessionOk(b, s);
    LocalSession(b, b', j, s);
    LocalStep(b, b', j, Some(s));
  }

  lemma DispatchTrimFails(b: Bus, mid: Bus, s: SessionId, j: JobId)
    requires ReadyHere(b, mid, s, j)
    ensures Consistent(Dispatch(mid, s, j, TrimFails))
  {
    var b' := Dispatch(mid, s, j, TrimFails);
    GuardSteps(mid.guard, j);
    FreshNotInMailbox(b, j);
    assert SessionOk(b, s);
    LocalSession(b, b', j, s);
    LocalStep(b, b', j, Some(s));
  }

  lemma DispatchCreateFails(b: Bus, mid: Bus, s: SessionId, j: JobId)
    requires ReadyHere(b, mid, s, j)
    ensures Consistent(Dispatch(mid, s, j, CreateFails))
  {
    var b' := Dispatch(mid, s, j, CreateFails);
    GuardSteps(mid.guard, j);
    FreshNotInMailbox(b, j);
    assert SessionOk(b, s);
    LocalSession(b, b', j, s);
    LocalStep(b, b', j, Some(s));
  }

  lemma DispatchConsistent(b: Bus, mid: Bus, s: SessionId, j: JobId, outcome: DispatchOutcome)
    requires ReadyHere(b, mid, s, j)
    ensures Consistent(Dispatch(mid, s, j, outcome))
  {
    match outcome
    case Started => DispatchStarts(b, mid, s, j);
    case TrimFails => DispatchTrimFails(b, mid, s, j);
    case CreateFails => DispatchCreateFails(b, mid, s, j);
  }

  /** A fresh job with a reservation of its own, or none. */
  ghost predicate FreshJob(b: Bus, mid: Bus, j: JobId) {
    && Consistent(b) && j == b.counter + 1
    && mid == b.(counter := j, guard := mid.guard)
    && SameExceptFor(b.guard, mid.guard, j) && Balanced(mid.guard) && WithinBudget(mid.guard)
    && (j in mid.guard.active ==> !mid.guard.active[j].acquired)
  }

  lemma FreshIsNowhere(b: Bus)
    requires Consistent(b)
    ensures b.counter + 1 !in b.jobs && b.counter + 1 !in b.guard.active && b.counter + 1 !in b.collected
    ensures forall t :: t in b.sessions ==>
                          b.counter + 1 !in b.sessions[t].queue && b.counter + 1 !in b.sessions[t].mailbox
  {
    assert b.counter + 1 in b.jobs ==> JobOk(b, b.counter + 1);
    NotInAnyQueue(b, b.counter + 1);
    FreshNotInMailbox(b, b.counter + 1);
  }

  lemma CheckedIsFresh(b: Bus, depth: int, estimate: nat)
    requires Consistent(b)
    requires b.guard.PreCheck(b.counter + 1, depth, estimate).Ok?
    ensures var j := b.counter + 1;
            var mid := b.(counter := j, guard := b.guard.PreCheck(j, depth, estimate).value);
            FreshJob(b, mid, j) && j in mid.guard.active
  {
    FreshIsNowhere(b);
    PreCheckBalanced(b.guard, b.counter + 1, depth, estimate);
  }

  lemma RejectedConsistent(b: Bus)
    requires Consistent(b)
    ensures Consistent(b.(counter := b.counter + 1))
  {
    FreshIsNowhere(b);
    LocalStep(b, b.(counter := b.counter + 1), b.counter + 1, None);
  }

  lemma ParkConsistent(b: Bus, mid: Bus, s: SessionId, j: JobId)
    requires FreshJob(b, mid, j) && s in b.sessions && j in mid.guard.active
    ensures Consistent(Parked(mid, s, j))
  {
    var b' := Parked(mid, s, j);
    FreshIsNowhere(b);
    assert SessionOk(b, s);
    LocalSession(b, b', j, s);
    LocalStep(b, b', j, Some(s));
  }

  lemma DispatchFreshConsistent(b: Bus, mid: Bus, s: SessionId, j: JobId, outcome: DispatchOutcome)
    requires FreshJob(b, mid, j) && s in b.sessions && j in mid.guard.active
    ensures Consistent(Dispatch(mid, s, j, outcome))
  {
    FreshIsNowhere(b);
    assert SessionOk(b, s);
    assert b.sessions[s := mid.sessions[s]] == b.sessions;
    DispatchConsistent(b, mid, s, j, outcome);
  }

  lemma SubmitShape(b: Bus, s: SessionId, estimate: nat, outcome: DispatchOutcome)
    requires s in b.sessions
    ensures var j := b.counter + 1;
            var checked := b.guard.PreCheck(j, 1, estimate);
            SubmitTask(b, s, estimate, outcome) ==
            if checked.Err? then b.(counter := j)
            else if Busy(b, s) then Parked(b.(counter := j, guard := checked.value), s, j)
            else Dispatch(b.(counter := j, guard := checked.value), s, j, outcome)
  {}

  lemma SubmitConsistent(b: Bus, s: SessionId, estimate: nat, outcome: DispatchOutcome)
    requires Consistent(b) && s in b.sessions
    ensures Consistent(SubmitTask(b, s, estimate, outcome))
  {
    var j := b.counter + 1;
    var checked := b.guard.PreCheck(j, 1, estimate);
    SubmitShape(b, s, estimate, outcome);
    if checked.Err? {
      RejectedConsistent(b);
      assert SubmitTask(b, s, estimate, outcome) == b.(counter := j);
    } else {
      CheckedIsFresh(b, 1, estimate);
      var mid := b.(counter := j, guard := checked.value);
      if Busy(b, s) {
        ParkConsistent(b, mid, s, j);
        assert SubmitTask(b, s, estimate, outcome) == Parked(mid, s, j);
      } else {
        DispatchFreshConsistent(b, mid, s, j, outcome);
        assert SubmitTask(b, s, estimate, outcome) == Dispatch(mid, s, j, outcome);
      }
    }
  }

  lemma OneShotStarts(b: Bus, mid: Bus, j: JobId)
    requires FreshJob(b, mid, j) && j in mid.guard.active
    ensures Consistent(mid.(jobs := mid.jobs[j := Job(None, Submitted, AtGate, false)]))
  {
    FreshIsNowhere(b);
    LocalStep(b, mid.(jobs := mid.jobs[j := Job(None, Submitted, AtGate, false)]), j, None);
  }

  lemma OneShotFails(b: Bus, mid: Bus, j: JobId)
    requires FreshJob(b, mid, j)
    ensures Consistent(mid.(guard := mid.guard.Release(j), jobs := mid.jobs - {j}))
  {
    FreshIsNowhere(b);
    GuardSteps(mid.guard, j);
    assert mid.jobs - {j} == mid.jobs;
    LocalStep(b, mid.(guard := mid.guard.Release(j)), j, None);
  }

  lemma OneShotShape(b: Bus, depth: nat, estimate: nat, created: bool)
    ensures var j := b.counter + 1;
            var checked := b.guard.PreCheck(j, depth + 1, estimate);
            OneShot(b, depth, estimate, created) ==
            if checked.Err? then b.(counter := j)
            else
              var mid := b.(counter := j, guard := checked.value);
              if created then mid.(jobs := mid.jobs[j := Job(None, Submitted, AtGate, false)])
              else mid.(guard := mid.guard.Release(j), jobs := mid.jobs - {j})
  {}

  lemma OneShotConsistent(b: Bus, depth: nat, estimate: nat, created: bool)
    requires Consistent(b)
    ensures Consistent(OneShot(b, depth, estimate, created))
  {
    var j := b.counter + 1;
    var checked := b.guard.PreCheck(j, depth + 1, estimate);
    OneShotShape(b, depth, estimate, created);
    if checked.Err? {
      RejectedConsistent(b);
    } else {
      CheckedIsFresh(b, depth + 1, estimate);
      OneShotChecked(b, b.(counter := j, guard := checked.value), created);
    }
  }

  lemma OneShotChecked(b: Bus, mid: Bus, created: bool)
    requires FreshJob(b, mid, b.counter + 1) && b.counter + 1 in mid.guard.active
    ensures created ==> Consistent(mid.(jobs := mid.jobs[b.counter + 1 := Job(None, Submitted, AtGate, false)]))
    ensures !created ==> Consistent(mid.(guard := mid.guard.Release(b.counter + 1), jobs := mid.jobs - {b.counter + 1}))
  {
    if created {
      OneShotStarts(b, mid, b.counter + 1);
    } else {
      OneShotFails(b, mid, b.counter + 1);
    }
  }

  lemma PassGateConsistent(b: Bus, j: JobId)
    requires Consistent(b) && Enabled(b, PassGate(j))
    ensures Consistent(Apply(b, PassGate(j)))
  {
    var b' := Apply(b, PassGate(j));
    var s := b.jobs[j].session;
    assert JobOk(b, j);
    NotInAnyQueue(b, j);
    FreshNotInMailbox(b, j);
    AcquireSlotBalanced(b.guard, j);
    if s.Some? {
      assert SessionOk(b, s.value);
      LocalSession(b, b', j, s.value);
    }
    LocalStep(b, b', j, s);
  }

  lemma PublishConsistent(b: Bus, j: JobId, result: Status)
    requires Consistent(b) && Enabled(b, Publish(j, result))
    ensures Consistent(Apply(b, Publish(j, result)))
  {
    var b' := Apply(b, Publish(j, result));
    var s := b.jobs[j].session;
    assert JobOk(b, j);
    NotInAnyQueue(b, j);
    FreshNotInMailbox(b, j);
    if s.Some? {
      assert SessionOk(b, s.value);
      LocalSession(b, b', j, s.value);
    }
    LocalStep(b, b', j, s);
  }

  /** A step that leaves the queue and the mailbox of `j`'s session alone. */
  lemma EndConsistent(b: Bus, b': Bus, j: JobId)
    requires Consistent(b) && j in b.jobs
    requires var phase := b.jobs[j].phase; phase == AtGate || phase == Published || phase == Ended
    requires b'.counter == b.counter && b'.collected == b.collected
    requires j in b'.jobs && b'.jobs == b.jobs[j := b'.jobs[j]]
    requires b'.jobs[j].session == b.jobs[j].session && b'.jobs[j].posted == b.jobs[j].posted
    requires b'.jobs[j].phase == Ended && PhaseMatchesStatus(b'.jobs[j])
    requires b'.guard == b.guard.Release(j) || (b'.guard == b.guard && b.jobs[j].phase == AtGate
             && b'.jobs[j].status == Submitted)
    requires var s := b.jobs[j].session;
             if s.None? then b'.sessions == b.sessions
             else
               && s.value in b.sessions && s.value in b'.sessions
               && (exists owed :: b'.sessions == b.sessions[s.value := b'.sessions[s.value]]
                                 && (b'.sessions[s.value] == b.sessions[s.value].(owed := owed)
                                     || b'.sessions[s.value] == ClearCurrent(b.sessions[s.value], j).(owed := owed)))
               && (b.jobs[j].posted ==> b'.sessions[s.value].current != Some(j))
    ensures Consistent(b')
  {
    var s := b.jobs[j].session;
    assert JobOk(b, j);
    NotInAnyQueue(b, j);
    GuardSteps(b.guard, j);
    if s.Some? {
      assert SessionOk(b, s.value);
      assert j in b.sessions[s.value].mailbox ==> PostedHere(b, s.value, j);
      LocalSession(b, b', j, s.value);
    }
    LocalStep(b, b', j, s);
  }

  lemma FinalizeConsistent(b: Bus, j: JobId)
    requires Consistent(b) && Enabled(b, Finalize(j))
    ensures Consistent(Apply(b, Finalize(j)))
  {
    assert JobOk(b, j);
    EndConsistent(b, Apply(b, Finalize(j)), j);
  }

  lemma CancelConsistent(b: Bus, j: JobId)
    requires Consistent(b) && Enabled(b, CancelTask(j))
    ensures Consistent(Apply(b, CancelTask(j)))
  {
    var b' := Apply(b, CancelTask(j));
    assert JobOk(b, j);
    var s := b.jobs[j].session;
    if s.Some? {
      assert b'.sessions[s.value] == b.sessions[s.value].(owed := b.sessions[s.value].owed);
    }
    EndConsistent(b, b', j);
  }

  lemma MarkAbortedConsistent(b: Bus, j: JobId)
    requires Consistent(b) && Enabled(b, MarkAborted(j))
    ensures Consistent(Apply(b, MarkAborted(j)))
  {
    var b' := Apply(b, MarkAborted(j));
    assert JobOk(b, j);
    var s := b.jobs[j].session;
    if s.Some? {
      assert b'.sessions[s.value] == b.sessions[s.value].(owed := b.sessions[s.value].owed);
    }
    EndConsistent(b, b', j);
  }

  lemma GiveUpConsistent(b: Bus, j: JobId)
    requires Consistent(b) && Enabled(b, GiveUp(j))
    ensures Consistent(Apply(b, GiveUp(j)))
  {
    var b' := Apply(b, GiveUp(j));
    assert JobOk(b, j);
    var s := b.jobs[j].session;
    assert b'.jobs == b.jobs[j := b'.jobs[j]];
    assert b'.sessions[s.value] == ClearCurrent(b.sessions[s.value], j).(owed := b.sessions[s.value].owed);
    EndConsistent(b, b', j);
  }

  /** Purging touches at most the queue of the job's own session. */
  lemma PurgeIsLocal(b: Bus, j: JobId)
    requires Consistent(b)
    ensures forall t :: t in b.sessions && (j !in b.jobs || b.jobs[j].session != Some(t))
                        ==> PurgeQueued(b, j).sessions[t] == b.sessions[t]
  {
    forall t | t in b.sessions && (j !in b.jobs || b.jobs[j].session != Some(t))
      ensures PurgeQueued(b, j).sessions[t] == b.sessions[t]
    {
      assert SessionOk(b, t);
      assert j in b.sessions[t].queue ==> QueuedHere(b, t, j);
      WithoutAbsent(b.sessions[t].queue, j);
    }
  }

  lemma AbortIdleConsistent(b: Bus, j: JobId)
    requires Consistent(b) && Enabled(b, AbortIdle(j))
    ensures Consistent(Apply(b, AbortIdle(j)))
  {
    var b' := Apply(b, AbortIdle(j));
    var s := b.jobs[j].session;
    assert JobOk(b, j);
    PurgeIsLocal(b, j);
    GuardSteps(b.guard, j);
    FreshNotInMailbox(b, j);
    if s.Some? {
      assert SessionOk(b, s.value);
      WithoutMembers(b.sessions[s.value].queue, j);
      WithoutKeepsDistinct(b.sessions[s.value].queue, j);
      LocalSession(b, b', j, s.value);
    }
    LocalStep(b, b', j, s);
  }

  /** The session just after its next queued job was popped for dispatch. */
  function Popped(b: Bus, s: SessionId): Bus
    requires s in b.sessions && b.sessions[s].queue != [] && b.sessions[s].owed > 0
  {
    var session := b.sessions[s];
    b.(sessions := b.sessions[s := session.(queue := session.queue[1..], owed := session.owed - 1)])
  }

  /** No aborted job is ever parked, so a drain dispatches the head of the queue. */
  lemma DrainTakesHead(b: Bus, s: SessionId, outcome: DispatchOutcome)
    requires Consistent(b) && Enabled(b, Drain(s, outcome)) && b.sessions[s].queue != []
    ensures QueuedHere(b, s, b.sessions[s].queue[0])
    ensures Apply(b, Drain(s, outcome)) == Dispatch(Popped(b, s), s, b.sessions[s].queue[0], outcome)
  {
    var session := b.sessions[s];
    assert SessionOk(b, s) && QueuedHere(b, s, session.queue[0]);
    var lowered := b.sessions[s := session.(owed := session.owed - 1)];
    assert lowered[s := lowered[s].(queue := lowered[s].queue[1..])] == Popped(b, s).sessions;
  }

  lemma DrainConsistent(b: Bus, s: SessionId, outcome: DispatchOutcome)
    requires Consistent(b) && Enabled(b, Drain(s, outcome))
    ensures Consistent(Apply(b, Drain(s, outcome)))
  {
    if b.sessions[s].queue == [] {
      DrainEmptyConsistent(b, s, outcome);
    } else {
      DrainTakesHead(b, s, outcome);
      DrainHeadConsistent(b, s, outcome);
    }
  }

  lemma DrainEmptyConsistent(b: Bus, s: SessionId, outcome: DispatchOutcome)
    requires Consistent(b) && Enabled(b, Drain(s, outcome)) && b.sessions[s].queue == []
    ensures Consistent(Apply(b, Drain(s, outcome)))
  {
    var b' := Apply(b, Drain(s, outcome));
    assert SessionOk(b, s);
    FreshIsNowhere(b);
    LocalSession(b, b', b.counter + 1, s);
    LocalStep(b, b', b.counter + 1, Some(s));
  }

  lemma DrainHeadConsistent(b: Bus, s: SessionId, outcome: DispatchOutcome)
    requires Consistent(b) && Enabled(b, Drain(s, outcome)) && b.sessions[s].queue != []
    ensures Consistent(Dispatch(Popped(b, s), s, b.sessions[s].queue[0], outcome))
  {
    var session := b.sessions[s];
    var j := session.queue[0];
    assert SessionOk(b, s);
    assert QueuedHere(b, s, j) && JobOk(b, j);
    assert session.queue == [j] + session.queue[1..];
    DispatchConsistent(b, Popped(b, s), s, j, outcome);
  }

  lemma ReconcileConsistent(b: Bus, s: SessionId)
    requires Consistent(b) && Enabled(b, Reconcile(s))
    ensures Consistent(Apply(b, Reconcile(s)))
    ensures b.sessions[s].current.value !in b.sessions[s].mailbox
    ensures !b.jobs[b.sessions[s].current.value].posted
  {
    var j := b.sessions[s].current.value;
    var b' := Apply(b, Reconcile(s));
    assert SessionOk(b, s) && JobOk(b, j);
    NotInAnyQueue(b, j);
    FreshNotInMailbox(b, j);
    GuardSteps(b.guard, j);
    LocalSession(b, b', j, s);
    LocalStep(b, b', j, Some(s));
  }

  lemma PopReadyConsistent(b: Bus, s: SessionId)
    requires Consistent(b) && Enabled(b, PopReady(s))
    ensures Consistent(Apply(b, PopReady(s)))
    ensures b.sessions[s].mailbox[0] !in b.collected
  {
    var b' := Apply(b, PopReady(s));
    var j := b.sessions[s].mailbox[0];
    assert SessionOk(b, s) && PostedHere(b, s, j);
    forall x | x in b'.jobs ensures JobOk(b', x) { assert JobOk(b, x); }
    forall t | t in b'.sessions
      ensures SessionOk(b', t)
    {
      assert SessionOk(b, t);
      forall q | q in b'.sessions[t].queue
        ensures QueuedHere(b', t, q)
      {
        assert QueuedHere(b, t, q);
      }
      forall m | m in b'.sessions[t].mailbox
        ensures PostedHere(b', t, m) && m !in b'.collected
      {
        assert m in b.sessions[t].mailbox && PostedHere(b, t, m);
      }
    }
  }

  lemma CreateSessionConsistent(b: Bus, s: SessionId)
    requires Consistent(b) && s !in b.sessions
    ensures Consistent(Apply(b, CreateSession(s)))
  {
    var b' := Apply(b, CreateSession(s));
    forall x | x in b'.jobs ensures JobOk(b', x) { assert JobOk(b, x); }
    forall t | t in b'.sessions
      ensures SessionOk(b', t)
    {
      if t != s {
        assert SessionOk(b, t);
        forall q | q in b'.sessions[t].queue ensures QueuedHere(b', t, q) { assert QueuedHere(b, t, q); }
        forall m | m in b'.sessions[t].mailbox ensures PostedHere(b', t, m) { assert PostedHere(b, t, m); }
      }
    }
  }

  lemma StepConsistent(b: Bus, step: Step)
    requires Consistent(b) && Enabled(b, step)
    ensures Consistent(Apply(b, step))
  {
    match step
    case CreateSession(s) => CreateSessionConsistent(b, s);
    case Submit(s, estimate, outcome) => SubmitConsistent(b, s, estimate, outcome);
    case SubmitOneShot(depth, estimate, created) => OneShotConsistent(b, depth, estimate, created);
    case PassGate(j) => PassGateConsistent(b, j);
    case Publish(j, result) => PublishConsistent(b, j, result);
    case Finalize(j) => FinalizeConsistent(b, j);
    case Drain(s, outcome) => DrainConsistent(b, s, outcome);
    case AbortIdle(j) => AbortIdleConsistent(b, j);
    case CancelTask(j) => CancelConsistent(b, j);
    case MarkAborted(j) => MarkAbortedConsistent(b, j);
    case GiveUp(j) => GiveUpConsistent(b, j);
    case Reconcile(s) => ReconcileConsistent(b, s);
    case PopReady(s) => PopReadyConsistent(b, s);
  }

  // ---- What holds of every run ----

  lemma {:induction false} RunConsistent(rule: Rule, b: Bus, steps: seq<Step>, final: Bus)
    requires Consistent(b) && Executes(rule, b, steps, final)
    ensures Consistent(final)
    decreases |steps|
  {
    if steps != [] {
      StepConsistent(b, steps[0]);
      RunConsistent(rule, Apply(b, steps[0]), steps[1..], final);
    }
  }

  /** No job is still to run, to be finalised or to be dispatched. */
  ghost predicate Quiescent(b: Bus) {
    forall j :: j in b.jobs ==> Terminal(b.jobs[j].status) && !InFlight(b.jobs[j].phase)
  }

  /**
   Every run, whatever the interleaving, cancellations and dispatch failures, conserves
   tokens and slots, stays within the token budget, leaves no reservation with a job that
   ended, and at quiescence has everything back.
   */
  lemma GuardConserved(maxDepth: int, maxTokens: int, maxParallel: int, steps: seq<Step>, b: Bus)
    requires Executes(AnyStep, InitialBus(maxDepth, maxTokens, maxParallel), steps, b)
    ensures b.guard.reserved == SumEstimates(b.guard.active) <= Max(maxTokens, 0)
    ensures b.guard.free + |Held(b.guard.active)| == Max(maxParallel, 1)
    ensures forall j :: j in b.jobs && Terminal(b.jobs[j].status) && !InFlight(b.jobs[j].phase)
                        ==> j !in b.guard.active
    ensures Quiescent(b) ==> b.guard.reserved == 0 && b.guard.free == Max(maxParallel, 1)
  {
    InitialConsistent(maxDepth, maxTokens, maxParallel);
    RunConsistent(AnyStep, InitialBus(maxDepth, maxTokens, maxParallel), steps, b);
    LimitsAreConstant(AnyStep, InitialBus(maxDepth, maxTokens, maxParallel), steps, b);
    forall j | j in b.jobs && Terminal(b.jobs[j].status) && !InFlight(b.jobs[j].phase)
      ensures j !in b.guard.active
    {
      assert JobOk(b, j);
    }
    if Quiescent(b) {
      assert b.guard.active.Keys == {};
      assert b.guard.active == map[];
      EmptyGuardIsIdle(b.guard);
    }
  }

  lemma {:induction false} DrainFrame(b: Bus, s: SessionId, outcome: DispatchOutcome)
    requires s in b.sessions
    ensures DrainQueue(b, s, outcome).guard.maxTokens == b.guard.maxTokens
    ensures DrainQueue(b, s, outcome).guard.slots == b.guard.slots
    ensures DrainQueue(b, s, outcome).collected == b.collected
    decreases |b.sessions[s].queue|
  {
    var session := b.sessions[s];
    if session.queue != [] && session.queue[0] in b.jobs && b.jobs[session.queue[0]].status == Aborted {
      DrainFrame(b.(sessions := b.sessions[s := session.(queue := session.queue[1..])]), s, outcome);
    }
  }

  lemma {:induction false} LimitsAreConstant(rule: Rule, b: Bus, steps: seq<Step>, final: Bus)
    requires Executes(rule, b, steps, final)
    ensures final.guard.maxTokens == b.guard.maxTokens && final.guard.slots == b.guard.slots
    decreases |steps|
  {
    if steps != [] {
      var step := steps[0];
      if step.Drain? {
        var session := b.sessions[step.s];
        DrainFrame(b.(sessions := b.sessions[step.s := session.(owed := session.owed - 1)]), step.s, step.outcome);
      }
      LimitsAreConstant(rule, Apply(b, step), steps[1..], final);
    }
  }

  /** The results a run hands out of its mailboxes, in order. */
  function HandedOut(b: Bus, steps: seq<Step>): seq<JobId>
    decreases |steps|
  {
    if steps == [] || !Enabled(b, steps[0]) then []
    else (if steps[0].PopReady? then [b.sessions[steps[0].s].mailbox[0]] else [])
         + HandedOut(Apply(b, steps[0]), steps[1..])
  }

  /** Whatever the interleaving, no job's result leaves a mailbox twice: a result is posted
      once, by finalisation or by reconciliation, never by both. */
  lemma {:induction false} MailboxExactlyOnce(rule: Rule, b: Bus, steps: seq<Step>, final: Bus)
    requires Consistent(b) && Executes(rule, b, steps, final)
    ensures NoDuplicates(HandedOut(b, steps))
    ensures forall j :: j in HandedOut(b, steps) ==> j !in b.collected
    decreases |steps|
  {
    if steps != [] {
      var b' := Apply(b, steps[0]);
      StepConsistent(b, steps[0]);
      MailboxExactlyOnce(rule, b', steps[1..], final);
      CollectedGrows(b, steps[0]);
      if steps[0].PopReady? {
        PopReadyConsistent(b, steps[0].s);
      }
    }
  }

  lemma CollectedGrows(b: Bus, step: Step)
    requires Enabled(b, step)
    ensures b.collected <= Apply(b, step).collected
  {
    if step.Drain? {
      var session := b.sessions[step.s];
      DrainFrame(b.(sessions := b.sessions[step.s := session.(owed := session.owed - 1)]), step.s, step.outcome);
    }
  }

  // ---- Posting ----

  /** The job whose result a step puts into a mailbox. */
  function PostedBy(b: Bus, step: Step): seq<JobId>
    requires Enabled(b, step)
  {
    match step
    case Publish(j, _) => if b.jobs[j].session.Some? then [j] else []
    case Reconcile(s) => [b.sessions[s].current.value]
    case _ => []
  }

  function PostedOver(b: Bus, steps: seq<Step>): seq<JobId>
    decreases |steps|
  {
    if steps == [] || !Enabled(b, steps[0]) then []
    else PostedBy(b, steps[0]) + PostedOver(Apply(b, steps[0]), steps[1..])
  }

  predicate Posted(b: Bus, j: JobId) { j in b.jobs && b.jobs[j].posted }

  lemma DispatchKeepsPosted(b: Bus, s: SessionId, j: JobId, outcome: DispatchOutcome, x: JobId)
    requires s in b.sessions && Posted(b, x) && x != j
    ensures Posted(Dispatch(b, s, j, outcome), x)
  {}

  lemma SubmitKeepsPosted(b: Bus, s: SessionId, estimate: nat, outcome: DispatchOutcome, x: JobId)
    requires s in b.sessions && Posted(b, x) && b.counter + 1 !in b.jobs
    ensures Posted(SubmitTask(b, s, estimate, outcome), x)
  {
    SubmitShape(b, s, estimate, outcome);
  }

  lemma DrainKeepsPosted(b: Bus, s: SessionId, outcome: DispatchOutcome, x: JobId)
    requires Consistent(b) && Enabled(b, Drain(s, outcome)) && Posted(b, x)
    ensures Posted(Apply(b, Drain(s, outcome)), x)
  {
    if b.sessions[s].queue != [] {
      assert JobOk(b, x);
      DrainTakesHead(b, s, outcome);
      DispatchKeepsPosted(Popped(b, s), s, b.sessions[s].queue[0], outcome, x);
    }
  }

  lemma PostedStays(b: Bus, step: Step, x: JobId)
    requires Consistent(b) && Enabled(b, step) && Posted(b, x)
    ensures Posted(Apply(b, step), x)
  {
    FreshIsNowhere(b);
    if step.Submit? {
      SubmitKeepsPosted(b, step.s, step.estimate, step.outcome, x);
    } else if step.Drain? {
      DrainKeepsPosted(b, step.s, step.outcome, x);
    }
  }

  lemma PostingIsFirst(b: Bus, step: Step, x: JobId)
    requires Consistent(b) && Enabled(b, step) && x in PostedBy(b, step)
    ensures !Posted(b, x) && Posted(Apply(b, step), x)
  {
    match step
    case Publish(j, _) => assert JobOk(b, j);
    case Reconcile(s) => ReconcileConsistent(b, s);
  }

  /** Whatever the interleaving, no job's result is posted twice, by finalisation or by reconciliation. */
  lemma {:induction false} PostedExactlyOnce(rule: Rule, b: Bus, steps: seq<Step>, final: Bus)
    requires Consistent(b) && Executes(rule, b, steps, final)
    ensures NoDuplicates(PostedOver(b, steps))
    ensures forall x :: x in PostedOver(b, steps) ==> !Posted(b, x)
    decreases |steps|
  {
    if steps != [] {
      var b' := Apply(b, steps[0]);
      var first, rest := PostedBy(b, steps[0]), PostedOver(b', steps[1..]);
      StepConsistent(b, steps[0]);
      PostedExactlyOnce(rule, b', steps[1..], final);
      PostedStep(b, steps[0], b');
      JoinDistinct(first, rest);
    }
  }

  lemma PostedStep(b: Bus, step: Step, b': Bus)
    requires Consistent(b) && Enabled(b, step) && b' == Apply(b, step)
    ensures |PostedBy(b, step)| <= 1
    ensures forall x :: x in PostedBy(b, step) ==> !Posted(b, x) && Posted(b', x)
    ensures forall x :: Posted(b, x) ==> Posted(b', x)
  {
    forall x | x in PostedBy(b, step) ensures !Posted(b, x) && Posted(b', x) {
      PostingIsFirst(b, step, x);
    }
    forall x | Posted(b, x) ensures Posted(b', x) {
      PostedStays(b, step, x);
    }
  }

  lemma JoinDistinct(first: seq<JobId>, rest: seq<JobId>)
    requires |first| <= 1 && NoDuplicates(rest) && forall x :: x in first ==> x !in rest
    ensures NoDuplicates(first + rest)
  {
    if first != [] {
      assert first[0] in first;
      assert forall i :: 0 < i < |first + rest| ==> (first + rest)[i] == rest[i - 1];
    } else {
      assert first + rest == rest;
    }
  }
}
