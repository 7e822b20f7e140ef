/**
 How jobs end and in which order their results leave: a job's final status is the one its
 first ending step gave it, and a session's mailbox is first in, first out.
 */
module SessionOutcome {
  import opened Common
  import opened SpawnGuards
  import opened SessionBus

  // ---- Final status ----

  predicate IsFinal(st: Status) { st == Completed || st == Failed || st == Aborted }

  predicate HasEnded(b: Bus, j: JobId) { j in b.jobs && IsFinal(b.jobs[j].status) }

  /** A running job may end with any of the three final statuses and with no other. */
  lemma PublishPossible(b: Bus, j: JobId, result: Status)
    requires Consistent(b) && j in b.jobs && b.jobs[j].phase == InRun
    ensures Enabled(b, Publish(j, result)) <==> IsFinal(result)
  {
    assert JobOk(b, j);
  }

  /** The status a step ends a job with: the result it publishes, or aborted. */
  function EndsAs(b: Bus, step: Step, j: JobId): Option<Status> {
    match step
    case Publish(i, result) => if i == j then Some(result) else None
    case AbortIdle(i) => if i == j then Some(Aborted) else None
    case MarkAborted(i) => if i == j then Some(Aborted) else None
    case GiveUp(i) => if i == j then Some(Aborted) else None
    case Reconcile(s) => if s in b.sessions && b.sessions[s].current == Some(j) then Some(Aborted) else None
    case _ => None
  }

  /** What the first step of a run that ends the job ends it with. */
  function FirstEnd(b: Bus, steps: seq<Step>, j: JobId): Option<Status>
    decreases |steps|
  {
    if steps == [] || !Enabled(b, steps[0]) then None
    else if EndsAs(b, steps[0], j).Some? then EndsAs(b, steps[0], j)
    else FirstEnd(Apply(b, steps[0]), steps[1..], j)
  }

  /** A step ended the job exactly as `EndsAs` says, or left an ended one alone. */
  predicate StatusStep(b: Bus, step: Step, b': Bus, j: JobId) {
    if HasEnded(b, j) then HasEnded(b', j) && b'.jobs[j].status == b.jobs[j].status
    else if EndsAs(b, step, j).Some? then j in b'.jobs && Some(b'.jobs[j].status) == EndsAs(b, step, j)
    else !HasEnded(b', j)
  }

  lemma SubmitStatus(b: Bus, s: SessionId, estimate: nat, outcome: DispatchOutcome, j: JobId)
    requires s in b.sessions && b.counter + 1 !in b.jobs
    ensures StatusStep(b, Submit(s, estimate, outcome), SubmitTask(b, s, estimate, outcome), j)
  {
    SubmitShape(b, s, estimate, outcome);
  }

  lemma HeadStatus(b: Bus, s: SessionId, outcome: DispatchOutcome, j: JobId)
    requires s in b.sessions && b.sessions[s].queue != [] && b.sessions[s].owed > 0
    requires QueuedHere(b, s, b.sessions[s].queue[0])
    ensures StatusStep(b, Drain(s, outcome), Dispatch(Popped(b, s), s, b.sessions[s].queue[0], outcome), j)
  {}

  lemma DrainStatus(b: Bus, s: SessionId, outcome: DispatchOutcome, j: JobId)
    requires Consistent(b) && Enabled(b, Drain(s, outcome))
    ensures StatusStep(b, Drain(s, outcome), Apply(b, Drain(s, outcome)), j)
  {
    if b.sessions[s].queue != [] {
      DrainTakesHead(b, s, outcome);
      HeadStatus(b, s, outcome, j);
    }
  }

  lemma TaskStatus(b: Bus, step: Step, j: JobId)
    requires Enabled(b, step) && (step.PassGate? || step.Publish? || step.Finalize? || step.CancelTask?)
    requires PhaseMatchesStatus(b.jobs[step.j])
    ensures StatusStep(b, step, Apply(b, step), j)
  {}

  lemma RestStatus(b: Bus, step: Step, j: JobId)
    requires Enabled(b, step) && b.counter + 1 !in b.jobs && !step.Submit? && !step.Drain?
    requires !step.PassGate? && !step.Publish? && !step.Finalize? && !step.CancelTask?
    ensures StatusStep(b, step, Apply(b, step), j)
  {}

  lemma StepStatus(b: Bus, step: Step, j: JobId)
    requires Consistent(b) && Enabled(b, step)
    ensures StatusStep(b, step, Apply(b, step), j)
  {
    FreshIsNowhere(b);
    match step
    case Submit(s, estimate, outcome) => SubmitStatus(b, s, estimate, outcome, j);
    case Drain(s, outcome) => DrainStatus(b, s, outcome, j);
    case PassGate(i) =>
      assert JobOk(b, i);
      TaskStatus(b, step, j);
    case Publish(i, _) =>
      assert JobOk(b, i);
      TaskStatus(b, step, j);
    case Finalize(i) =>
      assert JobOk(b, i);
      TaskStatus(b, step, j);
    case CancelTask(i) =>
      assert JobOk(b, i);
      TaskStatus(b, step, j);
    case _ => RestStatus(b, step, j);
  }

  /** No step of any run changes a final status. */
  lemma {:induction false} FinalStatusStays(rule: Rule, b: Bus, steps: seq<Step>, final: Bus, j: JobId)
    requires Consistent(b) && Executes(rule, b, steps, final) && HasEnded(b, j)
    ensures HasEnded(final, j) && final.jobs[j].status == b.jobs[j].status
    decreases |steps|
  {
    if steps != [] {
      StepStatus(b, steps[0], j);
      StepConsistent(b, steps[0]);
      FinalStatusStays(rule, Apply(b, steps[0]), steps[1..], final, j);
    }
  }

  /** Over every run: a job has ended if and only if some step ended it, and its status is what the
      first such step gave it, the published result or aborted. */
  lemma {:induction false} EndsAsPublished(rule: Rule, b: Bus, steps: seq<Step>, final: Bus, j: JobId)
    requires Consistent(b) && Executes(rule, b, steps, final) && !HasEnded(b, j)
    ensures HasEnded(final, j) <==> FirstEnd(b, steps, j).Some?
    ensures HasEnded(final, j) ==> Some(final.jobs[j].status) == FirstEnd(b, steps, j)
    decreases |steps|
  {
    if steps != [] {
      var b' := Apply(b, steps[0]);
      StepStatus(b, steps[0], j);
      StepConsistent(b, steps[0]);
      if EndsAs(b, steps[0], j).Some? {
        EndIsTerminal(b, steps[0], j);
        FinalStatusStays(rule, b', steps[1..], final, j);
      } else {
        EndsAsPublished(rule, b', steps[1..], final, j);
      }
    }
  }

  lemma EndIsTerminal(b: Bus, step: Step, j: JobId)
    requires Enabled(b, step) && EndsAs(b, step, j).Some?
    ensures IsFinal(EndsAs(b, step, j).value)
  {}

  // ---- Admission ----

  /** The depth is within the limit, and the tokens fit beside all reservations that are active. */
  ghost predicate Admits(g: Guard, depth: int, estimate: int) {
    depth < g.maxDepth && (estimate <= 0 || SumEstimates(g.active) + estimate <= g.maxTokens)
  }

  /** A session task, at depth 1, is admitted exactly then; it is registered under the next id, parked
      if the session is busy, and undone if its dispatch fails. An id is used up in any case. */
  lemma SubmitAdmitsIff(b: Bus, s: SessionId, estimate: nat, outcome: DispatchOutcome)
    requires Consistent(b) && s in b.sessions
    ensures var b', j := SubmitTask(b, s, estimate, outcome), b.counter + 1;
            && b'.counter == j && j !in b.jobs
            && (j in b'.jobs <==> Admits(b.guard, 1, estimate) && (Busy(b, s) || outcome == Started))
            && (j in b'.guard.active <==> j in b'.jobs)
            && (j in b'.jobs ==> b'.jobs[j].status == (if Busy(b, s) then Queued else Submitted)
                                 && b'.guard.active[j] == Reservation(estimate, false))
  {
    FreshIsNowhere(b);
    SubmitShape(b, s, estimate, outcome);
    PreCheckRefusesIff(b.guard, b.counter + 1, 1, estimate);
  }

  /** A job of its own, one deeper than its parent. */
  lemma OneShotAdmitsIff(b: Bus, depth: nat, estimate: nat, created: bool)
    requires Consistent(b)
    ensures var b', j := OneShot(b, depth, estimate, created), b.counter + 1;
            && b'.counter == j && j !in b.jobs
            && (j in b'.jobs <==> Admits(b.guard, depth + 1, estimate) && created)
            && (j in b'.guard.active <==> j in b'.jobs)
  {
    FreshIsNowhere(b);
    PreCheckRefusesIff(b.guard, b.counter + 1, depth + 1, estimate);
  }

  // ---- Mailbox order ----

  function Mail(b: Bus, s: SessionId): seq<JobId> { if s in b.sessions then b.sessions[s].mailbox else [] }

  /** The job whose result a step posts to session `s`. */
  function PostsTo(b: Bus, step: Step, s: SessionId): seq<JobId> {
    match step
    case Publish(j, _) => if j in b.jobs && b.jobs[j].session == Some(s) then [j] else []
    case Reconcile(t) =>
      if t == s && s in b.sessions && b.sessions[s].current.Some? then [b.sessions[s].current.value] else []
    case _ => []
  }

  /** The result a step takes out of session `s`. */
  function TakesFrom(b: Bus, step: Step, s: SessionId): seq<JobId> {
    if step == PopReady(s) && Mail(b, s) != [] then [Mail(b, s)[0]] else []
  }

  function PostedTo(b: Bus, steps: seq<Step>, s: SessionId): seq<JobId>
    decreases |steps|
  {
    if steps == [] || !Enabled(b, steps[0]) then []
    else PostsTo(b, steps[0], s) + PostedTo(Apply(b, steps[0]), steps[1..], s)
  }

  function TakenFrom(b: Bus, steps: seq<Step>, s: SessionId): seq<JobId>
    decreases |steps|
  {
    if steps == [] || !Enabled(b, steps[0]) then []
    else TakesFrom(b, steps[0], s) + TakenFrom(Apply(b, steps[0]), steps[1..], s)
  }

  /** What was there and what is posted is what is taken and what is left, in order. */
  predicate MailStep(b: Bus, step: Step, b': Bus, s: SessionId) {
    Mail(b, s) + PostsTo(b, step, s) == TakesFrom(b, step, s) + Mail(b', s)
  }

  lemma SameMail(b: Bus, step: Step, b': Bus, s: SessionId)
    requires Mail(b', s) == Mail(b, s) && PostsTo(b, step, s) == [] && TakesFrom(b, step, s) == []
    ensures MailStep(b, step, b', s)
  {
    assert Mail(b, s) + [] == Mail(b, s) && [] + Mail(b', s) == Mail(b', s);
  }

  lemma PopMail(b: Bus, s: SessionId)
    requires Enabled(b, PopReady(s))
    ensures MailStep(b, PopReady(s), Apply(b, PopReady(s)), s)
  {
    assert Mail(b, s) + [] == [Mail(b, s)[0]] + Mail(b, s)[1..];
  }

  lemma PostMail(b: Bus, step: Step, s: SessionId)
    requires Enabled(b, step) && PostsTo(b, step, s) != []
    requires step.Reconcile? ==> b.sessions[step.s].current.value !in b.sessions[step.s].mailbox
    ensures MailStep(b, step, Apply(b, step), s)
  {
    assert [] + Mail(Apply(b, step), s) == Mail(Apply(b, step), s);
  }

  lemma DrainMail(b: Bus, s: SessionId, outcome: DispatchOutcome, t: SessionId)
    requires Consistent(b) && Enabled(b, Drain(s, outcome))
    ensures MailStep(b, Drain(s, outcome), Apply(b, Drain(s, outcome)), t)
  {
    if b.sessions[s].queue != [] {
      DrainTakesHead(b, s, outcome);
    }
    SameMail(b, Drain(s, outcome), Apply(b, Drain(s, outcome)), t);
  }

  lemma StepMail(b: Bus, step: Step, s: SessionId)
    requires Consistent(b) && Enabled(b, step)
    ensures MailStep(b, step, Apply(b, step), s)
  {
    if step.Drain? {
      DrainMail(b, step.s, step.outcome, s);
    } else if step == PopReady(s) {
      PopMail(b, s);
    } else {
      if step.Reconcile? {
        ReconcileConsistent(b, step.s);
      }
      RestMail(b, step, s);
    }
  }

  lemma RestMail(b: Bus, step: Step, s: SessionId)
    requires Enabled(b, step) && !step.Drain? && step != PopReady(s)
    requires step.Reconcile? ==> b.sessions[step.s].current.value !in b.sessions[step.s].mailbox
    ensures MailStep(b, step, Apply(b, step), s)
  {
    if PostsTo(b, step, s) != [] {
      PostMail(b, step, s);
    } else {
      SameMail(b, step, Apply(b, step), s);
    }
  }

  lemma {:induction false} RunMail(rule: Rule, b: Bus, steps: seq<Step>, final: Bus, s: SessionId)
    requires Consistent(b) && Executes(rule, b, steps, final)
    ensures Mail(b, s) + PostedTo(b, steps, s) == TakenFrom(b, steps, s) + Mail(final, s)
    decreases |steps|
  {
    if steps == [] {
      assert Mail(b, s) + [] == [] + Mail(b, s);
    } else {
      var b' := Apply(b, steps[0]);
      StepMail(b, steps[0], s);
      StepConsistent(b, steps[0]);
      RunMail(rule, b', steps[1..], final, s);
      JoinMail(Mail(b, s), PostsTo(b, steps[0], s), PostedTo(b', steps[1..], s), TakesFrom(b, steps[0], s),
               TakenFrom(b', steps[1..], s), Mail(b', s), Mail(final, s));
    }
  }

  lemma JoinMail(m: seq<JobId>, p: seq<JobId>, ps: seq<JobId>, t: seq<JobId>, ts: seq<JobId>, m': seq<JobId>,
      final: seq<JobId>)
    requires m + p == t + m' && m' + ps == ts + final
    ensures m + (p + ps) == (t + ts) + final
  {
    Reassociate(m, p, ps);
    Reassociate(t, m', ps);
    Reassociate(t, ts, final);
  }

  /** Over every run from an empty bus, results leave a session in the order in which they were posted:
      what was taken, followed by what is left, is what was posted. */
  lemma ResultsLeaveInOrder(maxDepth: int, maxTokens: int, maxParallel: int, steps: seq<Step>, b: Bus, s: SessionId)
    requires Executes(AnyStep, InitialBus(maxDepth, maxTokens, maxParallel), steps, b)
    ensures var init := InitialBus(maxDepth, maxTokens, maxParallel);
            TakenFrom(init, steps, s) + Mail(b, s) == PostedTo(init, steps, s)
  {
    var init := InitialBus(maxDepth, maxTokens, maxParallel);
    InitialConsistent(maxDepth, maxTokens, maxParallel);
    RunMail(AnyStep, init, steps, b, s);
    assert [] + PostedTo(init, steps, s) == PostedTo(init, steps, s);
  }

  // ---- Drains ----

  function Owed(b: Bus, s: SessionId): nat { if s in b.sessions then b.sessions[s].owed else 0 }

  /** A job of session `s` leaves its `finally`, or is reconciled: each owes the session a drain. */
  predicate OwesDrain(b: Bus, step: Step, s: SessionId) {
    (step.Finalize? && step.j in b.jobs && b.jobs[step.j].session == Some(s)) || step == Reconcile(s)
  }

  predicate IsDrain(step: Step, s: SessionId) { step.Drain? && step.s == s }

  function Ends(b: Bus, steps: seq<Step>, s: SessionId): nat
    decreases |steps|
  {
    if steps == [] || !Enabled(b, steps[0]) then 0
    else (if OwesDrain(b, steps[0], s) then 1 else 0) + Ends(Apply(b, steps[0]), steps[1..], s)
  }

  function Drains(steps: seq<Step>, s: SessionId): nat {
    if steps == [] then 0 else (if IsDrain(steps[0], s) then 1 else 0) + Drains(steps[1..], s)
  }

  lemma DrainOwed(b: Bus, s: SessionId, outcome: DispatchOutcome, t: SessionId)
    requires Consistent(b) && Enabled(b, Drain(s, outcome))
    ensures Owed(Apply(b, Drain(s, outcome)), t) + (if s == t then 1 else 0) == Owed(b, t)
  {
    if b.sessions[s].queue != [] {
      DrainTakesHead(b, s, outcome);
    }
  }

  lemma RestOwed(b: Bus, step: Step, s: SessionId)
    requires Enabled(b, step) && !step.Drain?
    ensures Owed(Apply(b, step), s) == Owed(b, s) + if OwesDrain(b, step, s) then 1 else 0
  {}

  /** Over every run each job that ends owes its session one drain, which is taken once or still owed. */
  lemma {:induction false} DrainsBalance(rule: Rule, b: Bus, steps: seq<Step>, final: Bus, s: SessionId)
    requires Consistent(b) && Executes(rule, b, steps, final)
    ensures Owed(b, s) + Ends(b, steps, s) == Drains(steps, s) + Owed(final, s)
    decreases |steps|
  {
    if steps != [] {
      if steps[0].Drain? {
        DrainOwed(b, steps[0].s, steps[0].outcome, s);
      } else {
        RestOwed(b, steps[0], s);
      }
      StepConsistent(b, steps[0]);
      DrainsBalance(rule, Apply(b, steps[0]), steps[1..], final, s);
    }
  }

  function WithQueue(b: Bus, s: SessionId, queue: seq<JobId>): Bus
    requires s in b.sessions
  {
    b.(sessions := b.sessions[s := b.sessions[s].(queue := queue)])
  }

  predicate IsAborted(b: Bus, j: JobId) { j in b.jobs && b.jobs[j].status == Aborted }

  /** In any state, consistent or not, a drain drops the aborted jobs at the head of the queue and
      dispatches the first other one, if there is one. */
  lemma {:induction false} DrainSkipsAborted(b: Bus, s: SessionId, outcome: DispatchOutcome, n: nat)
    requires s in b.sessions && n <= |b.sessions[s].queue|
    requires forall i :: 0 <= i < n ==> IsAborted(b, b.sessions[s].queue[i])
    requires n < |b.sessions[s].queue| ==> !IsAborted(b, b.sessions[s].queue[n])
    ensures var queue := b.sessions[s].queue;
            DrainQueue(b, s, outcome)
            == if n == |queue| then WithQueue(b, s, [])
               else Dispatch(WithQueue(b, s, queue[n + 1..]), s, queue[n], outcome)
    decreases n
  {
    var queue := b.sessions[s].queue;
    if n > 0 {
      var next := WithQueue(b, s, queue[1..]);
      assert IsAborted(b, queue[0]);
      assert forall i :: 0 <= i < n - 1 ==> IsAborted(next, queue[1..][i]);
      DrainSkipsAborted(next, s, outcome, n - 1);
      var left := if n < |queue| then queue[n + 1..] else [];
      assert n < |queue| ==> queue[1..][n..] == left;
      assert WithQueue(next, s, left) == WithQueue(b, s, left);
    } else if queue == [] {
      assert WithQueue(b, s, []) == b;
    }
  }
}
