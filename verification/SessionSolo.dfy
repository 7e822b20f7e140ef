/**
 Exactly when a session runs one task at a time. The queue is drained without looking at
 whether the session is busy, and that missing test is the whole condition: over every
 interleaving, exclusion is lost by a drain over a queue into a busy session and by nothing else.
 */
module SessionSolo {
  import opened Common
  import opened SpawnGuards
  import opened SessionBus

  /** A session job that is submitted or running and has a task. */
  predicate LiveTask(job: Job) {
    job.session.Some? && (job.status == Submitted || job.status == Running) && job.phase != NoTask
  }

  /** Every such job is the one its session is at. */
  ghost predicate Solo(b: Bus) {
    forall j :: j in b.jobs && LiveTask(b.jobs[j]) ==>
                  b.jobs[j].session.value in b.sessions && b.sessions[b.jobs[j].session.value].current == Some(j)
  }

  /** The job a session is at has a task of its own. */
  ghost predicate CurrentHasTask(b: Bus) {
    forall s :: s in b.sessions && b.sessions[s].current.Some? ==>
                  var c := b.sessions[s].current.value;
                  c in b.jobs && b.jobs[c].session == Some(s) && b.jobs[c].phase != NoTask
  }

  /** A drain over a queue into a busy session; a failed trim stops before it does any harm. */
  predicate DrainsBusy(b: Bus, step: Step) {
    && step.Drain? && step.s in b.sessions && b.sessions[step.s].queue != []
    && Busy(b, step.s) && step.outcome != TrimFails
  }

  // ---- One step ----

  lemma DispatchSoloIff(b: Bus, s: SessionId, j: JobId, outcome: DispatchOutcome)
    requires Solo(b) && CurrentHasTask(b) && s in b.sessions
    requires j in b.jobs ==> b.jobs[j].phase == NoTask
    ensures Solo(Dispatch(b, s, j, outcome)) <==> !(Busy(b, s) && outcome != TrimFails)
    ensures CurrentHasTask(Dispatch(b, s, j, outcome))
  {
    var b' := Dispatch(b, s, j, outcome);
    if Busy(b, s) && outcome != TrimFails {
      var c := b.sessions[s].current.value;
      assert c != j && c in b'.jobs && b'.jobs[c] == b.jobs[c] && LiveTask(b'.jobs[c]);
      assert b'.sessions[s].current != Some(c);
    }
  }

  lemma SubmitSolo(b: Bus, s: SessionId, estimate: nat, outcome: DispatchOutcome)
    requires Solo(b) && CurrentHasTask(b) && s in b.sessions && b.counter + 1 !in b.jobs
    ensures Solo(SubmitTask(b, s, estimate, outcome)) && CurrentHasTask(SubmitTask(b, s, estimate, outcome))
  {
    var j := b.counter + 1;
    var checked := b.guard.PreCheck(j, 1, estimate);
    SubmitShape(b, s, estimate, outcome);
    if checked.Ok? && !Busy(b, s) {
      DispatchSoloIff(b.(counter := j, guard := checked.value), s, j, outcome);
    }
  }

  lemma DrainSoloIff(b: Bus, s: SessionId, outcome: DispatchOutcome)
    requires Consistent(b) && Solo(b) && CurrentHasTask(b) && Enabled(b, Drain(s, outcome))
    ensures Solo(Apply(b, Drain(s, outcome))) <==> !DrainsBusy(b, Drain(s, outcome))
    ensures CurrentHasTask(Apply(b, Drain(s, outcome)))
  {
    if b.sessions[s].queue != [] {
      DrainTakesHead(b, s, outcome);
      PoppedSolo(b, s);
      DispatchSoloIff(Popped(b, s), s, b.sessions[s].queue[0], outcome);
    }
  }

  lemma PoppedSolo(b: Bus, s: SessionId)
    requires Solo(b) && CurrentHasTask(b) && s in b.sessions && b.sessions[s].queue != [] && b.sessions[s].owed > 0
    ensures Solo(Popped(b, s)) && CurrentHasTask(Popped(b, s)) && (Busy(Popped(b, s), s) <==> Busy(b, s))
  {}

  /** A step on job `j` that leaves every session where it is, or takes `j` off its own. */
  lemma SoloLocal(b: Bus, b': Bus, j: JobId)
    requires Solo(b) && CurrentHasTask(b) && b'.sessions.Keys == b.sessions.Keys
    requires forall x :: x in b.jobs && x != j ==> x in b'.jobs && b'.jobs[x] == b.jobs[x]
    requires forall x :: x in b'.jobs && x != j ==> x in b.jobs
    requires forall t :: t in b.sessions ==>
                           || b'.sessions[t].current == b.sessions[t].current
                           || (b.sessions[t].current == Some(j) && b'.sessions[t].current == None)
    requires j in b'.jobs && LiveTask(b'.jobs[j]) ==>
               && j in b.jobs && LiveTask(b.jobs[j]) && b'.jobs[j].session == b.jobs[j].session
               && b'.sessions[b.jobs[j].session.value].current == Some(j)
    requires j in b.jobs && b.jobs[j].phase != NoTask ==>
               j in b'.jobs && b'.jobs[j].phase != NoTask && b'.jobs[j].session == b.jobs[j].session
    ensures Solo(b') && CurrentHasTask(b')
  {}

  lemma TaskStepSolo(b: Bus, step: Step)
    requires Solo(b) && CurrentHasTask(b) && Enabled(b, step)
    requires step.PassGate? || step.Publish? || step.CancelTask? || step.MarkAborted?
    requires PhaseMatchesStatus(b.jobs[step.j])
    ensures Solo(Apply(b, step)) && CurrentHasTask(Apply(b, step))
  {
    SoloLocal(b, Apply(b, step), step.j);
  }

  lemma EndStepSolo(b: Bus, step: Step)
    requires Solo(b) && CurrentHasTask(b) && Enabled(b, step) && (step.Finalize? || step.GiveUp? || step.Reconcile?)
    requires step.Finalize? ==> PhaseMatchesStatus(b.jobs[step.j])
    ensures Solo(Apply(b, step)) && CurrentHasTask(Apply(b, step))
  {
    SoloLocal(b, Apply(b, step), if step.Reconcile? then b.sessions[step.s].current.value else step.j);
  }

  lemma RestSolo(b: Bus, step: Step)
    requires Solo(b) && CurrentHasTask(b) && Enabled(b, step) && b.counter + 1 !in b.jobs
    requires step.AbortIdle? || step.SubmitOneShot? || step.CreateSession? || step.PopReady?
    requires step.AbortIdle? ==> PhaseMatchesStatus(b.jobs[step.j])
    ensures Solo(Apply(b, step)) && CurrentHasTask(Apply(b, step))
  {
    if step.AbortIdle? {
      SoloLocal(b, Apply(b, step), step.j);
    } else if step.SubmitOneShot? {
      SoloLocal(b, Apply(b, step), b.counter + 1);
    }
  }

  /** In a consistent state in which exclusion holds, a step keeps it if and only if it is no drain
      over a queue into a busy session. */
  lemma StepSoloIff(b: Bus, step: Step)
    requires Consistent(b) && Solo(b) && CurrentHasTask(b) && Enabled(b, step)
    ensures Solo(Apply(b, step)) <==> !DrainsBusy(b, step)
    ensures CurrentHasTask(Apply(b, step))
  {
    FreshIsNowhere(b);
    match step
    case Submit(s, estimate, outcome) => SubmitSolo(b, s, estimate, outcome);
    case Drain(s, outcome) => DrainSoloIff(b, s, outcome);
    case AbortIdle(j) =>
      assert JobOk(b, j);
      RestSolo(b, step);
    case Finalize(j) =>
      assert JobOk(b, j);
      EndStepSolo(b, step);
    case GiveUp(_) => EndStepSolo(b, step);
    case Reconcile(_) => EndStepSolo(b, step);
    case SubmitOneShot(_, _, _) => RestSolo(b, step);
    case CreateSession(_) => RestSolo(b, step);
    case PopReady(_) => RestSolo(b, step);
    case _ =>
      assert JobOk(b, step.j);
      TaskStepSolo(b, step);
  }

  // ---- Whole runs ----

  ghost predicate AlwaysSolo(b: Bus, steps: seq<Step>)
    decreases |steps|
  {
    Solo(b) && (steps == [] || (Enabled(b, steps[0]) && AlwaysSolo(Apply(b, steps[0]), steps[1..])))
  }

  predicate NeverDrainsBusy(b: Bus, steps: seq<Step>)
    decreases |steps|
  {
    steps == []
    || (Enabled(b, steps[0]) && !DrainsBusy(b, steps[0]) && NeverDrainsBusy(Apply(b, steps[0]), steps[1..]))
  }

  /** Over every run, every session job that is live with a task is its session's current one in
      every state if and only if no drain over a queue runs on a busy session. */
  lemma {:induction false} SoloThroughoutIff(rule: Rule, b: Bus, steps: seq<Step>, final: Bus)
    requires Consistent(b) && Solo(b) && CurrentHasTask(b) && Executes(rule, b, steps, final)
    ensures AlwaysSolo(b, steps) <==> NeverDrainsBusy(b, steps)
    decreases |steps|
  {
    if steps != [] {
      var b' := Apply(b, steps[0]);
      StepSoloIff(b, steps[0]);
      if Solo(b') {
        StepConsistent(b, steps[0]);
        SoloThroughoutIff(rule, b', steps[1..], final);
      }
    }
  }

  /** Two jobs of session `s` are both live and have a task. */
  ghost predicate TwoTasks(b: Bus, s: SessionId, i: JobId, k: JobId) {
    && i != k && i in b.jobs && k in b.jobs
    && b.jobs[i].session == b.jobs[k].session == Some(s)
    && LiveTask(b.jobs[i]) && LiveTask(b.jobs[k])
  }

  ghost predicate AnyTwoTasks(b: Bus) { exists s, i, k :: TwoTasks(b, s, i, k) }

  ghost predicate NeverTwoTasks(b: Bus, steps: seq<Step>)
    decreases |steps|
  {
    !AnyTwoTasks(b) && (steps == [] || (Enabled(b, steps[0]) && NeverTwoTasks(Apply(b, steps[0]), steps[1..])))
  }

  lemma SoloHasNoTwo(b: Bus)
    requires Solo(b)
    ensures !AnyTwoTasks(b)
  {}

  lemma BusyDrainGivesTwo(b: Bus, s: SessionId)
    requires Consistent(b) && CurrentHasTask(b) && Enabled(b, Drain(s, Started)) && DrainsBusy(b, Drain(s, Started))
    ensures TwoTasks(Apply(b, Drain(s, Started)), s, b.sessions[s].current.value, b.sessions[s].queue[0])
  {
    DrainTakesHead(b, s, Started);
  }

  /** Some job of the session is live and has a task. */
  ghost predicate HasLiveTask(b: Bus, s: SessionId) {
    exists j :: j in b.jobs && b.jobs[j].session == Some(s) && LiveTask(b.jobs[j])
  }

  /** A submit or a drain that starts a task in a session that already has one. */
  ghost predicate StartsSecond(b: Bus, step: Step) {
    match step
    case Submit(s, estimate, Started) =>
      && s in b.sessions && b.guard.PreCheck(b.counter + 1, 1, estimate).Ok? && !Busy(b, s) && HasLiveTask(b, s)
    case Drain(s, Started) => s in b.sessions && b.sessions[s].queue != [] && HasLiveTask(b, s)
    case _ => false
  }

  ghost predicate NeverStartsSecond(b: Bus, steps: seq<Step>)
    decreases |steps|
  {
    steps == []
    || (Enabled(b, steps[0]) && !StartsSecond(b, steps[0]) && NeverStartsSecond(Apply(b, steps[0]), steps[1..]))
  }

  lemma NoNewTask(b: Bus, b': Bus)
    requires !AnyTwoTasks(b)
    requires forall j :: j in b'.jobs && LiveTask(b'.jobs[j]) ==>
                           j in b.jobs && LiveTask(b.jobs[j]) && b'.jobs[j].session == b.jobs[j].session
    ensures !AnyTwoTasks(b')
  {
    if AnyTwoTasks(b') {
      var s, i, k :| TwoTasks(b', s, i, k);
      assert TwoTasks(b, s, i, k);
    }
  }

  lemma NewTaskIff(b: Bus, b': Bus, s: SessionId, n: JobId)
    requires !AnyTwoTasks(b) && b'.jobs == b.jobs[n := Job(Some(s), Submitted, AtGate, false)]
    requires n in b.jobs ==> b.jobs[n].phase == NoTask
    ensures AnyTwoTasks(b') <==> HasLiveTask(b, s)
  {
    if HasLiveTask(b, s) {
      var j :| j in b.jobs && b.jobs[j].session == Some(s) && LiveTask(b.jobs[j]);
      assert TwoTasks(b', s, j, n);
    }
    if AnyTwoTasks(b') {
      var t, i, k :| TwoTasks(b', t, i, k);
      if i != n && k != n {
        assert TwoTasks(b, t, i, k);
      }
    }
  }

  lemma SubmitTwoIff(b: Bus, s: SessionId, estimate: nat, outcome: DispatchOutcome)
    requires !AnyTwoTasks(b) && s in b.sessions && b.counter + 1 !in b.jobs
    ensures AnyTwoTasks(SubmitTask(b, s, estimate, outcome)) <==> StartsSecond(b, Submit(s, estimate, outcome))
  {
    var b' := SubmitTask(b, s, estimate, outcome);
    SubmitShape(b, s, estimate, outcome);
    if b.guard.PreCheck(b.counter + 1, 1, estimate).Ok? && !Busy(b, s) && outcome == Started {
      NewTaskIff(b, b', s, b.counter + 1);
    } else {
      NoNewTask(b, b');
    }
  }

  lemma HeadTwoIff(b: Bus, s: SessionId, outcome: DispatchOutcome)
    requires !AnyTwoTasks(b) && s in b.sessions && b.sessions[s].queue != [] && b.sessions[s].owed > 0
    requires QueuedHere(b, s, b.sessions[s].queue[0])
    ensures AnyTwoTasks(Dispatch(Popped(b, s), s, b.sessions[s].queue[0], outcome)) <==>
            outcome == Started && HasLiveTask(b, s)
  {
    var b' := Dispatch(Popped(b, s), s, b.sessions[s].queue[0], outcome);
    if outcome == Started {
      NewTaskIff(b, b', s, b.sessions[s].queue[0]);
    } else {
      NoNewTask(b, b');
    }
  }

  lemma DrainTwoIff(b: Bus, s: SessionId, outcome: DispatchOutcome)
    requires Consistent(b) && !AnyTwoTasks(b) && Enabled(b, Drain(s, outcome))
    ensures AnyTwoTasks(Apply(b, Drain(s, outcome))) <==> StartsSecond(b, Drain(s, outcome))
  {
    if b.sessions[s].queue != [] {
      DrainTakesHead(b, s, outcome);
      HeadTwoIff(b, s, outcome);
    } else {
      NoNewTask(b, Apply(b, Drain(s, outcome)));
    }
  }

  lemma OtherNoTwo(b: Bus, step: Step)
    requires !AnyTwoTasks(b) && Enabled(b, step) && !step.Submit? && !step.Drain?
    requires step.PassGate? ==> PhaseMatchesStatus(b.jobs[step.j])
    ensures !AnyTwoTasks(Apply(b, step))
  {
    NoNewTask(b, Apply(b, step));
  }

  /** From every consistent state without two tasks of one session, a step makes two if and only if
      it starts a task in a session that already has one. */
  lemma StepTwoTasksIff(b: Bus, step: Step)
    requires Consistent(b) && !AnyTwoTasks(b) && Enabled(b, step)
    ensures AnyTwoTasks(Apply(b, step)) <==> StartsSecond(b, step)
  {
    FreshIsNowhere(b);
    match step
    case Submit(s, estimate, outcome) => SubmitTwoIff(b, s, estimate, outcome);
    case Drain(s, outcome) => DrainTwoIff(b, s, outcome);
    case PassGate(j) =>
      assert JobOk(b, j);
      OtherNoTwo(b, step);
    case _ => OtherNoTwo(b, step);
  }

  /** Over every run, whatever fails: no state has two tasks of one session if and only if no submit
      and no drain starts a task in a session that already has one. */
  lemma {:induction false} NeverTwoTasksIff(rule: Rule, b: Bus, steps: seq<Step>, final: Bus)
    requires Consistent(b) && !AnyTwoTasks(b) && Executes(rule, b, steps, final)
    ensures NeverTwoTasks(b, steps) <==> NeverStartsSecond(b, steps)
    decreases |steps|
  {
    if steps != [] {
      var b' := Apply(b, steps[0]);
      StepTwoTasksIff(b, steps[0]);
      if StartsSecond(b, steps[0]) {
        TwoIsAny(b', steps[1..]);
      } else {
        StepConsistent(b, steps[0]);
        NeverTwoTasksIff(rule, b', steps[1..], final);
      }
    }
  }

  /** Over every run without a failed task creation in a drain over a queue: no state has two tasks
      of one session if and only if no drain over a queue runs on a busy session. */
  lemma {:induction false} TwoTasksNeedBusyDrain(rule: Rule, b: Bus, steps: seq<Step>, final: Bus)
    requires Consistent(b) && Solo(b) && CurrentHasTask(b) && Executes(rule, b, steps, final)
    requires NeverFailsCreation(b, steps)
    ensures NeverTwoTasks(b, steps) <==> NeverDrainsBusy(b, steps)
    decreases |steps|
  {
    SoloHasNoTwo(b);
    if steps != [] {
      var b' := Apply(b, steps[0]);
      StepSoloIff(b, steps[0]);
      if DrainsBusy(b, steps[0]) {
        BusyDrainGivesTwo(b, steps[0].s);
        TwoIsAny(b', steps[1..]);
      } else {
        StepConsistent(b, steps[0]);
        TwoTasksNeedBusyDrain(rule, b', steps[1..], final);
      }
    }
  }

  lemma TwoIsAny(b: Bus, steps: seq<Step>)
    requires AnyTwoTasks(b)
    ensures !NeverTwoTasks(b, steps)
  {}

  // ---- Submitted jobs without a task ----

  /** A live status without a task. */
  predicate Zombie(job: Job) { job.phase == NoTask && (job.status == Submitted || job.status == Running) }

  ghost predicate NoZombies(b: Bus) { forall j :: j in b.jobs ==> !Zombie(b.jobs[j]) }

  /** A drain that pops a job and cannot create its task. A submit that fails so leaves nothing. */
  predicate FailsCreation(b: Bus, step: Step) {
    step.Drain? && step.outcome == CreateFails && step.s in b.sessions && b.sessions[step.s].queue != []
  }

  predicate NeverFailsCreation(b: Bus, steps: seq<Step>)
    decreases |steps|
  {
    steps == []
    || (Enabled(b, steps[0]) && !FailsCreation(b, steps[0]) && NeverFailsCreation(Apply(b, steps[0]), steps[1..]))
  }

  ghost predicate AlwaysNoZombies(b: Bus, steps: seq<Step>)
    decreases |steps|
  {
    NoZombies(b) && (steps == [] || (Enabled(b, steps[0]) && AlwaysNoZombies(Apply(b, steps[0]), steps[1..])))
  }

  lemma SubmitNoZombies(b: Bus, s: SessionId, estimate: nat, outcome: DispatchOutcome)
    requires NoZombies(b) && s in b.sessions && b.counter + 1 !in b.jobs
    ensures NoZombies(SubmitTask(b, s, estimate, outcome))
  {
    SubmitShape(b, s, estimate, outcome);
  }

  lemma DrainNoZombiesIff(b: Bus, s: SessionId, outcome: DispatchOutcome)
    requires Consistent(b) && NoZombies(b) && Enabled(b, Drain(s, outcome))
    ensures NoZombies(Apply(b, Drain(s, outcome))) <==> !FailsCreation(b, Drain(s, outcome))
  {
    if b.sessions[s].queue != [] {
      DrainTakesHead(b, s, outcome);
      HeadNoZombiesIff(b, s, outcome);
    }
  }

  lemma HeadNoZombiesIff(b: Bus, s: SessionId, outcome: DispatchOutcome)
    requires NoZombies(b) && s in b.sessions && b.sessions[s].queue != [] && b.sessions[s].owed > 0
    requires QueuedHere(b, s, b.sessions[s].queue[0])
    ensures NoZombies(Dispatch(Popped(b, s), s, b.sessions[s].queue[0], outcome)) <==> outcome != CreateFails
  {
    var head := b.sessions[s].queue[0];
    var b' := Dispatch(Popped(b, s), s, head, outcome);
    if outcome == CreateFails {
      assert head in b'.jobs && Zombie(b'.jobs[head]);
    }
  }

  lemma OtherNoZombies(b: Bus, step: Step)
    requires NoZombies(b) && Enabled(b, step) && !step.Submit? && !step.Drain?
    ensures NoZombies(Apply(b, step))
  {}

  /** Every live job keeps having a task if and only if the step is no drain over a queue that
      fails to create one. */
  lemma StepNoZombiesIff(b: Bus, step: Step)
    requires Consistent(b) && NoZombies(b) && Enabled(b, step)
    ensures NoZombies(Apply(b, step)) <==> !FailsCreation(b, step)
  {
    FreshIsNowhere(b);
    match step
    case Submit(s, estimate, outcome) => SubmitNoZombies(b, s, estimate, outcome);
    case Drain(s, outcome) => DrainNoZombiesIff(b, s, outcome);
    case _ => OtherNoZombies(b, step);
  }

  lemma {:induction false} NoZombiesThroughoutIff(rule: Rule, b: Bus, steps: seq<Step>, final: Bus)
    requires Consistent(b) && NoZombies(b) && Executes(rule, b, steps, final)
    ensures AlwaysNoZombies(b, steps) <==> NeverFailsCreation(b, steps)
    ensures AlwaysNoZombies(b, steps) ==> NoZombies(final)
    decreases |steps|
  {
    if steps != [] {
      var b' := Apply(b, steps[0]);
      StepNoZombiesIff(b, steps[0]);
      if NoZombies(b') {
        StepConsistent(b, steps[0]);
        NoZombiesThroughoutIff(rule, b', steps[1..], final);
      }
    }
  }

  // ---- Queued jobs in no queue ----

  ghost predicate NoneStranded(b: Bus) {
    forall j :: j in b.jobs && b.jobs[j].status == Queued ==>
                  b.jobs[j].session.Some? && b.jobs[j].session.value in b.sessions
                  && j in b.sessions[b.jobs[j].session.value].queue
  }

  /** A drain that pops a job and cannot trim the history for it. */
  predicate FailsTrim(b: Bus, step: Step) {
    step.Drain? && step.outcome == TrimFails && step.s in b.sessions && b.sessions[step.s].queue != []
  }

  predicate NeverFailsTrim(b: Bus, steps: seq<Step>)
    decreases |steps|
  {
    steps == []
    || (Enabled(b, steps[0]) && !FailsTrim(b, steps[0]) && NeverFailsTrim(Apply(b, steps[0]), steps[1..]))
  }

  ghost predicate AlwaysNoneStranded(b: Bus, steps: seq<Step>)
    decreases |steps|
  {
    NoneStranded(b) && (steps == [] || (Enabled(b, steps[0]) && AlwaysNoneStranded(Apply(b, steps[0]), steps[1..])))
  }

  lemma SubmitNoneStranded(b: Bus, s: SessionId, estimate: nat, outcome: DispatchOutcome)
    requires NoneStranded(b) && s in b.sessions && b.counter + 1 !in b.jobs
    ensures NoneStranded(SubmitTask(b, s, estimate, outcome))
  {
    SubmitShape(b, s, estimate, outcome);
  }

  lemma HeadStrandedIff(b: Bus, s: SessionId, outcome: DispatchOutcome)
    requires NoneStranded(b) && s in b.sessions && b.sessions[s].queue != [] && b.sessions[s].owed > 0
    requires QueuedHere(b, s, b.sessions[s].queue[0]) && NoDuplicates(b.sessions[s].queue)
    ensures NoneStranded(Dispatch(Popped(b, s), s, b.sessions[s].queue[0], outcome)) <==> outcome != TrimFails
  {
    var head, queue := b.sessions[s].queue[0], b.sessions[s].queue;
    var b' := Dispatch(Popped(b, s), s, head, outcome);
    assert queue == [head] + queue[1..];
    assert head !in queue[1..];
    if outcome == TrimFails {
      assert head in b'.jobs && b'.jobs[head].status == Queued;
    }
  }

  lemma DrainStrandedIff(b: Bus, s: SessionId, outcome: DispatchOutcome)
    requires Consistent(b) && NoneStranded(b) && Enabled(b, Drain(s, outcome))
    ensures NoneStranded(Apply(b, Drain(s, outcome))) <==> !FailsTrim(b, Drain(s, outcome))
  {
    if b.sessions[s].queue != [] {
      assert SessionOk(b, s);
      DrainTakesHead(b, s, outcome);
      HeadStrandedIff(b, s, outcome);
    }
  }

  lemma AbortNoneStranded(b: Bus, j: JobId)
    requires NoneStranded(b) && Enabled(b, AbortIdle(j))
    ensures NoneStranded(Apply(b, AbortIdle(j)))
  {
    forall s | s in b.sessions
      ensures forall x :: x in Without(b.sessions[s].queue, j) <==> x in b.sessions[s].queue && x != j
    {
      WithoutMembers(b.sessions[s].queue, j);
    }
  }

  lemma OtherNoneStranded(b: Bus, step: Step)
    requires NoneStranded(b) && Enabled(b, step) && !step.Submit? && !step.Drain? && !step.AbortIdle?
    ensures NoneStranded(Apply(b, step))
  {}

  /** Every queued job stays in its session's queue if and only if the step is no drain over a
      queue whose trim fails. */
  lemma StepStrandedIff(b: Bus, step: Step)
    requires Consistent(b) && NoneStranded(b) && Enabled(b, step)
    ensures NoneStranded(Apply(b, step)) <==> !FailsTrim(b, step)
  {
    FreshIsNowhere(b);
    match step
    case Submit(s, estimate, outcome) => SubmitNoneStranded(b, s, estimate, outcome);
    case Drain(s, outcome) => DrainStrandedIff(b, s, outcome);
    case AbortIdle(j) => AbortNoneStranded(b, j);
    case _ => OtherNoneStranded(b, step);
  }

  lemma {:induction false} NoneStrandedThroughoutIff(rule: Rule, b: Bus, steps: seq<Step>, final: Bus)
    requires Consistent(b) && NoneStranded(b) && Executes(rule, b, steps, final)
    ensures AlwaysNoneStranded(b, steps) <==> NeverFailsTrim(b, steps)
    ensures AlwaysNoneStranded(b, steps) ==> NoneStranded(final)
    decreases |steps|
  {
    if steps != [] {
      var b' := Apply(b, steps[0]);
      StepStrandedIff(b, steps[0]);
      if NoneStranded(b') {
        StepConsistent(b, steps[0]);
        NoneStrandedThroughoutIff(rule, b', steps[1..], final);
      }
    }
  }

  /** From an empty bus, the conditions together. */
  lemma ExclusionExactly(maxDepth: int, maxTokens: int, maxParallel: int, steps: seq<Step>, b: Bus)
    requires Executes(AnyStep, InitialBus(maxDepth, maxTokens, maxParallel), steps, b)
    ensures var init := InitialBus(maxDepth, maxTokens, maxParallel);
            && (AlwaysSolo(init, steps) <==> NeverDrainsBusy(init, steps))
            && (AlwaysNoZombies(init, steps) <==> NeverFailsCreation(init, steps))
            && (AlwaysNoneStranded(init, steps) <==> NeverFailsTrim(init, steps))
            && (NeverTwoTasks(init, steps) <==> NeverStartsSecond(init, steps))
            && (NeverFailsCreation(init, steps) ==> (NeverTwoTasks(init, steps) <==> NeverDrainsBusy(init, steps)))
  {
    var init := InitialBus(maxDepth, maxTokens, maxParallel);
    InitialConsistent(maxDepth, maxTokens, maxParallel);
    SoloThroughoutIff(AnyStep, init, steps, b);
    NoZombiesThroughoutIff(AnyStep, init, steps, b);
    NoneStrandedThroughoutIff(AnyStep, init, steps, b);
    NeverTwoTasksIff(AnyStep, init, steps, b);
    if NeverFailsCreation(init, steps) {
      TwoTasksNeedBusyDrain(AnyStep, init, steps, b);
    }
  }
}
