/**
 How a sub-agent's result reaches the one waiter of its task: through the in-memory
 mailbox, or recovered from the durable message channel.

 A wait first pops the mailbox and, when that is empty, reads messages; a result may be
 published between the two, so a read is possible whatever the mailbox holds. `published`
 are the jobs whose result this process posted; a job is posted at most once, by
 finalisation or reconciliation, on every run of the bus (`SessionBus.PostedExactlyOnce`).
 The log a process starts with may hold messages of an earlier process.
 */
module ResultDelivery {
  import opened Common
  import opened AgentComms

  const RESULT_KIND := "subtask_result"

  /** Messages returned by one read; the default limit of `consume`. */
  const READ_LIMIT: nat := 50

  /** A result as the waiter gets it: posted by a job of this process, or taken from a message. */
  datatype Delivery = Posted(job: string) | Recovered(e: Event)

  function JobOf(d: Delivery): string {
    match d
    case Posted(job) => job
    case Recovered(e) => e.job
  }

  /** `mailbox` joins the result queues of the task's sessions; a wait takes one entry of it. */
  datatype Hub = Hub(
    task: string,
    mailbox: seq<string>,
    published: set<string>,
    delivered: set<string>,
    recovered: seq<Event>,
    log: seq<Event>,
    cursors: Cursors,
    handed: seq<Delivery>)

  function Start(task: string, log: seq<Event>): Hub {
    Hub(task, [], {}, {}, [], log, map[], [])
  }

  function KeyFor(h: Hub, agent: string): Key { Key(agent, Some(h.task), Some(RESULT_KIND)) }

  /** A message that the recovery loop accepts for a job it has not delivered. */
  predicate Usable(e: Event) { e.usable && e.job != "" }

  predicate IsResult(h: Hub, e: Event) { e.task == h.task && e.kind == RESULT_KIND && Usable(e) }

  datatype Step =
    | Publish(job: string)
    | SendMessage(e: Event)
    | PopMailbox(i: nat)
    | ReadMessages(recipients: seq<string>, failing: set<string>)

  /** Buffers every usable message of a job not delivered yet, marking it delivered at once. */
  function Absorb(h: Hub, batch: seq<Event>): Hub
    decreases |batch|
  {
    if batch == [] then h
    else if Usable(batch[0]) && batch[0].job !in h.delivered then
      Absorb(h.(delivered := h.delivered + {batch[0].job}, recovered := h.recovered + [batch[0]]), batch[1..])
    else Absorb(h, batch[1..])
  }

  /** One recipient's read; a read that fails is skipped. */
  ghost function ReadOne(h: Hub, agent: string, failing: set<string>): Hub {
    var batch := Fetch(h.log, KeyFor(h, agent), CursorOf(h.cursors, KeyFor(h, agent)), READ_LIMIT);
    var after := AfterRead(h.cursors, KeyFor(h, agent), batch);
    if agent in failing || after.Err? then h else Absorb(h.(cursors := after.value), batch)
  }

  ghost function ReadAll(h: Hub, recipients: seq<string>, failing: set<string>): Hub
    decreases |recipients|
  {
    if recipients == [] then h else ReadAll(ReadOne(h, recipients[0], failing), recipients[1..], failing)
  }

  function PopRecovered(h: Hub): Hub {
    if h.recovered == [] then h
    else h.(recovered := h.recovered[1..], handed := h.handed + [Recovered(h.recovered[0])])
  }

  /** One call of the recovery path, whatever the mailbox holds: a buffered result first, else a read. */
  ghost function Reconciled(h: Hub, recipients: seq<string>, failing: set<string>): Hub {
    PopRecovered(if h.recovered != [] then h else ReadAll(h, recipients, failing))
  }

  ghost predicate Enabled(h: Hub, step: Step) {
    match step
    case Publish(job) => job != "" && job !in h.published
    case SendMessage(e) => Sorted(h.log + [e]) && (IsResult(h, e) ==> e.job in h.published)
    case PopMailbox(i) => i < |h.mailbox|
    case ReadMessages(_, _) => true
  }

  ghost function Apply(h: Hub, step: Step): Hub
    requires Enabled(h, step)
  {
    match step
    case Publish(job) => h.(mailbox := h.mailbox + [job], published := h.published + {job})
    case SendMessage(e) => h.(log := h.log + [e])
    case PopMailbox(i) =>
      h.(mailbox := h.mailbox[..i] + h.mailbox[i + 1..],
         delivered := h.delivered + {h.mailbox[i]},
         handed := h.handed + [Posted(h.mailbox[i])])
    case ReadMessages(recipients, failing) =>
      Reconciled(h, recipients, failing)
  }

  ghost predicate Run(h: Hub, steps: seq<Step>, final: Hub)
    decreases |steps|
  {
    if steps == [] then final == h
    else Enabled(h, steps[0]) && Run(Apply(h, steps[0]), steps[1..], final)
  }

  predicate Distinct(s: seq<string>) {
    forall i, j :: 0 <= i < j < |s| ==> s[i] != s[j]
  }

  /** What one recipient's read returns; a read that fails returns nothing. */
  ghost function Batch(h: Hub, agent: string, failing: set<string>): seq<Event> {
    var batch := Fetch(h.log, KeyFor(h, agent), CursorOf(h.cursors, KeyFor(h, agent)), READ_LIMIT);
    if agent in failing || AfterRead(h.cursors, KeyFor(h, agent), batch).Err? then [] else batch
  }

  /** What a read of the recipients, one after the other, returns in all. */
  ghost function Fetched(h: Hub, recipients: seq<string>, failing: set<string>): seq<Event>
    decreases |recipients|
  {
    if recipients == [] then []
    else Batch(h, recipients[0], failing) + Fetched(ReadOne(h, recipients[0], failing), recipients[1..], failing)
  }

  function JobsIn(batch: seq<Event>): set<string> {
    set e | e in batch && Usable(e) :: e.job
  }

  // ---- Exactly once ----

  function Ids(ds: seq<Delivery>): seq<string> { seq(|ds|, i requires 0 <= i < |ds| => JobOf(ds[i])) }

  function Jobs(events: seq<Event>): seq<string> { seq(|events|, i requires 0 <= i < |events| => events[i].job) }

  /** How often a job id is handed out, buffered or in the mailbox. */
  function Copies(h: Hub, job: string): nat {
    multiset(Ids(h.handed))[job] + multiset(Jobs(h.recovered))[job] + multiset(h.mailbox)[job]
  }

  ghost predicate Once(h: Hub) { forall job :: Copies(h, job) <= 1 }

  /** A job is marked delivered exactly when a result under its id was handed out or buffered. */
  ghost predicate Tracked(h: Hub) {
    && (forall job :: job in h.delivered <==> job in Ids(h.handed) || job in Jobs(h.recovered))
    && (forall job :: job in h.mailbox ==> job in h.published)
  }

  /** A publication of a job already delivered, or a read, with the buffer empty, that returns a
      usable message of a job in the mailbox. */
  ghost predicate Repeats(h: Hub, step: Step) {
    match step
    case Publish(job) => job in h.delivered
    case ReadMessages(recipients, failing) =>
      h.recovered == [] && exists job :: job in JobsIn(Fetched(h, recipients, failing)) && job in h.mailbox
    case _ => false
  }

  ghost predicate NeverRepeats(h: Hub, steps: seq<Step>)
    decreases |steps|
  {
    steps == [] || (Enabled(h, steps[0]) && !Repeats(h, steps[0]) && NeverRepeats(Apply(h, steps[0]), steps[1..]))
  }

  lemma JobsInJoin(a: seq<Event>, b: seq<Event>)
    ensures JobsIn(a + b) == JobsIn(a) + JobsIn(b)
  {}

  /** The messages of a batch that recovery buffers: the first usable one of each job not delivered. */
  function Firsts(delivered: set<string>, batch: seq<Event>): seq<Event>
    decreases |batch|
  {
    if batch == [] then []
    else if Usable(batch[0]) && batch[0].job !in delivered then
      [batch[0]] + Firsts(delivered + {batch[0].job}, batch[1..])
    else Firsts(delivered, batch[1..])
  }

  lemma IdsLast(ds: seq<Delivery>, d: Delivery)
    ensures Ids(ds + [d]) == Ids(ds) + [JobOf(d)]
  {}

  lemma JobsJoin(a: seq<Event>, b: seq<Event>)
    ensures Jobs(a + b) == Jobs(a) + Jobs(b)
  {}

  lemma {:induction false} FirstsJoin(delivered: set<string>, a: seq<Event>, b: seq<Event>)
    ensures Firsts(delivered, a + b) == Firsts(delivered, a) + Firsts(delivered + JobsIn(a), b)
    decreases |a|
  {
    if a == [] {
      assert a + b == b && delivered + JobsIn(a) == delivered;
    } else {
      var e := a[0];
      assert a == [e] + a[1..] && (a + b)[1..] == a[1..] + b;
      JobsInJoin([e], a[1..]);
      assert e in [e];
      if Usable(e) && e.job !in delivered {
        FirstsJoin(delivered + {e.job}, a[1..], b);
        assert delivered + {e.job} + JobsIn(a[1..]) == delivered + JobsIn(a);
      } else {
        FirstsJoin(delivered, a[1..], b);
        assert delivered + JobsIn(a[1..]) == delivered + JobsIn(a);
      }
    }
  }

  /** Absorbing a batch buffers exactly those messages. */
  lemma {:induction false} AbsorbAdds(h: Hub, batch: seq<Event>)
    ensures Absorb(h, batch) == h.(delivered := h.delivered + JobsIn(batch),
                                   recovered := h.recovered + Firsts(h.delivered, batch))
    decreases |batch|
  {
    if batch == [] {
      assert h.delivered + JobsIn(batch) == h.delivered && h.recovered + [] == h.recovered;
    } else {
      var e := batch[0];
      assert batch == [e] + batch[1..];
      JobsInJoin([e], batch[1..]);
      assert e in [e];
      if Usable(e) && e.job !in h.delivered {
        var h1 := h.(delivered := h.delivered + {e.job}, recovered := h.recovered + [e]);
        AbsorbAdds(h1, batch[1..]);
        assert h1.delivered + JobsIn(batch[1..]) == h.delivered + JobsIn(batch);
        Reassociate(h.recovered, [e], Firsts(h1.delivered, batch[1..]));
      } else {
        AbsorbAdds(h, batch[1..]);
        assert h.delivered + JobsIn(batch[1..]) == h.delivered + JobsIn(batch);
      }
    }
  }

  lemma ReadOneAdds(h: Hub, agent: string, failing: set<string>)
    ensures var h', batch := ReadOne(h, agent, failing), Batch(h, agent, failing);
            h' == h.(cursors := h'.cursors, delivered := h.delivered + JobsIn(batch),
                     recovered := h.recovered + Firsts(h.delivered, batch))
  {
    var k := KeyFor(h, agent);
    var batch := Fetch(h.log, k, CursorOf(h.cursors, k), READ_LIMIT);
    var after := AfterRead(h.cursors, k, batch);
    if agent in failing || after.Err? {
      assert h.delivered + JobsIn([]) == h.delivered && h.recovered + [] == h.recovered;
    } else {
      AbsorbAdds(h.(cursors := after.value), batch);
    }
  }

  /** A read of all recipients buffers the first message of each undelivered job it fetches. */
  lemma {:induction false} ReadAllAdds(h: Hub, recipients: seq<string>, failing: set<string>)
    ensures var h', fetched := ReadAll(h, recipients, failing), Fetched(h, recipients, failing);
            h' == h.(cursors := h'.cursors, delivered := h.delivered + JobsIn(fetched),
                     recovered := h.recovered + Firsts(h.delivered, fetched))
    decreases |recipients|
  {
    if recipients == [] {
      assert h.delivered + JobsIn([]) == h.delivered && h.recovered + [] == h.recovered;
    } else {
      var h1 := ReadOne(h, recipients[0], failing);
      var first, rest := Batch(h, recipients[0], failing), Fetched(h1, recipients[1..], failing);
      ReadOneAdds(h, recipients[0], failing);
      ReadAllAdds(h1, recipients[1..], failing);
      JobsInJoin(first, rest);
      assert h1.delivered + JobsIn(rest) == h.delivered + JobsIn(first + rest);
      FirstsJoin(h.delivered, first, rest);
      Reassociate(h.recovered, Firsts(h.delivered, first), Firsts(h1.delivered, rest));
    }
  }

  lemma {:induction false} FirstsCount(delivered: set<string>, batch: seq<Event>, job: string)
    ensures multiset(Jobs(Firsts(delivered, batch)))[job] == if job in JobsIn(batch) - delivered then 1 else 0
    decreases |batch|
  {
    if batch != [] {
      var e := batch[0];
      assert batch == [e] + batch[1..];
      JobsInJoin([e], batch[1..]);
      assert e in [e];
      if Usable(e) && e.job !in delivered {
        FirstsCount(delivered + {e.job}, batch[1..], job);
        JobsJoin([e], Firsts(delivered + {e.job}, batch[1..]));
        assert Jobs([e]) == [e.job];
      } else {
        FirstsCount(delivered, batch[1..], job);
      }
    }
  }

  lemma PopRecoveredCopies(h: Hub)
    ensures forall job :: Copies(PopRecovered(h), job) == Copies(h, job)
    ensures Tracked(h) ==> Tracked(PopRecovered(h))
  {
    if h.recovered != [] {
      var e, rest := h.recovered[0], h.recovered[1..];
      assert h.recovered == [e] + rest;
      JobsJoin([e], rest);
      assert Jobs([e]) == [e.job];
      IdsLast(h.handed, Recovered(e));
    }
  }

  lemma PopMailboxCopies(h: Hub, i: nat)
    requires i < |h.mailbox|
    ensures forall job :: Copies(Apply(h, PopMailbox(i)), job) == Copies(h, job)
    ensures Tracked(h) ==> Tracked(Apply(h, PopMailbox(i)))
  {
    var h' := Apply(h, PopMailbox(i));
    assert h.mailbox == h.mailbox[..i] + [h.mailbox[i]] + h.mailbox[i + 1..];
    IdsLast(h.handed, Posted(h.mailbox[i]));
    forall job | job in h'.mailbox ensures job in h.mailbox {}
  }

  /** The job a step adds a copy of. */
  ghost function Added(h: Hub, step: Step): set<string> {
    match step
    case Publish(job) => {job}
    case ReadMessages(recipients, failing) =>
      if h.recovered == [] then JobsIn(Fetched(h, recipients, failing)) - h.delivered else {}
    case _ => {}
  }

  /** No step takes a copy away, and each adds at most one of a job. */
  lemma StepCopies(h: Hub, step: Step)
    requires Enabled(h, step)
    ensures forall job :: Copies(Apply(h, step), job) == Copies(h, job) + if job in Added(h, step) then 1 else 0
    ensures Tracked(h) ==> Tracked(Apply(h, step))
  {
    match step
    case Publish(_) =>
    case SendMessage(_) =>
    case PopMailbox(i) => PopMailboxCopies(h, i);
    case ReadMessages(recipients, failing) =>
      if h.recovered == [] {
        var read := ReadAll(h, recipients, failing);
        ReadAllAdds(h, recipients, failing);
        ReadTracked(h, read, Fetched(h, recipients, failing));
        PopRecoveredCopies(read);
      } else {
        PopRecoveredCopies(h);
      }
  }

  lemma ReadTracked(h: Hub, h': Hub, fetched: seq<Event>)
    requires h' == h.(cursors := h'.cursors, delivered := h.delivered + JobsIn(fetched),
                      recovered := h.recovered + Firsts(h.delivered, fetched))
    ensures forall job :: Copies(h', job) == Copies(h, job) + if job in JobsIn(fetched) - h.delivered then 1 else 0
    ensures Tracked(h) ==> Tracked(h')
  {
    var more := Firsts(h.delivered, fetched);
    JobsJoin(h.recovered, more);
    forall job ensures multiset(Jobs(more))[job] == if job in JobsIn(fetched) - h.delivered then 1 else 0 {
      FirstsCount(h.delivered, fetched, job);
    }
    forall job ensures job in Jobs(more) <==> job in JobsIn(fetched) - h.delivered {
      assert job in multiset(Jobs(more)) <==> multiset(Jobs(more))[job] > 0;
    }
  }

  lemma TrackedCopies(h: Hub, job: string)
    requires Tracked(h)
    ensures job in h.delivered <==> multiset(Ids(h.handed))[job] + multiset(Jobs(h.recovered))[job] > 0
    ensures job in h.mailbox <==> multiset(h.mailbox)[job] > 0
  {}

  /** A step makes a second copy of some job if and only if it is one of the two repeats. */
  lemma StepOnceIff(h: Hub, step: Step)
    requires Tracked(h) && Once(h) && Enabled(h, step)
    ensures Once(Apply(h, step)) <==> !Repeats(h, step)
  {
    var h' := Apply(h, step);
    StepCopies(h, step);
    forall job ensures Copies(h, job) == 0 <==> job !in h.delivered && job !in h.mailbox {
      TrackedCopies(h, job);
    }
    forall job | job in h.mailbox ensures job !in h.delivered {
      TrackedCopies(h, job);
      assert Copies(h, job) <= 1;
    }
    assert Once(h') <==> forall job :: job in Added(h, step) ==> Copies(h, job) == 0 by {
      forall job ensures Copies(h', job) <= 1 <==> (job in Added(h, step) ==> Copies(h, job) == 0) {
        assert Copies(h, job) <= 1;
      }
    }
  }

  lemma {:induction false} CopiesGrow(h: Hub, steps: seq<Step>, final: Hub)
    requires Run(h, steps, final)
    ensures forall job :: Copies(h, job) <= Copies(final, job)
    decreases |steps|
  {
    if steps != [] {
      StepCopies(h, steps[0]);
      CopiesGrow(Apply(h, steps[0]), steps[1..], final);
    }
  }

  lemma {:induction false} RunOnceIff(h: Hub, steps: seq<Step>, final: Hub)
    requires Tracked(h) && Once(h) && Run(h, steps, final)
    ensures Once(final) <==> NeverRepeats(h, steps)
    decreases |steps|
  {
    if steps != [] {
      var h' := Apply(h, steps[0]);
      StepOnceIff(h, steps[0]);
      StepCopies(h, steps[0]);
      if Once(h') {
        RunOnceIff(h', steps[1..], final);
      } else {
        CopiesGrow(h', steps[1..], final);
      }
    }
  }

  /**
   Over every run from every log: each job id occurs at most once in what was handed out, what is
   buffered and what is in the mailbox together, if and only if no job already delivered was
   published and no read with an empty buffer fetched a job that was in the mailbox.
   */
  lemma HandedOnceIff(task: string, log: seq<Event>, steps: seq<Step>, h: Hub)
    requires Run(Start(task, log), steps, h)
    ensures Once(h) <==> NeverRepeats(Start(task, log), steps)
    ensures Once(h) ==> Distinct(Ids(h.handed))
  {
    RunOnceIff(Start(task, log), steps, h);
    if Once(h) {
      var ids := Ids(h.handed);
      forall i, j | 0 <= i < j < |ids| ensures ids[i] != ids[j] {
        assert ids == ids[..i] + [ids[i]] + ids[i + 1..j] + [ids[j]] + ids[j + 1..];
        assert Copies(h, ids[i]) <= 1;
      }
    }
  }

  // ---- A sufficient discipline ----

  function JobsOf(task: string, log: seq<Event>): set<string> {
    set e | e in log && IsResult(Start(task, log), e) :: e.job
  }

  /** No job of this process reuses an id under which the starting log holds a result of the task. */
  ghost predicate FreshIds(steps: seq<Step>, earlier: set<string>) {
    forall step :: step in steps && step.Publish? ==> step.job !in earlier
  }

  /** Messages are read only when the mailbox is empty, with nothing in between. */
  ghost predicate ReadsWhenEmpty(h: Hub, steps: seq<Step>)
    decreases |steps|
  {
    steps == []
    || (Enabled(h, steps[0]) && (steps[0].ReadMessages? ==> h.mailbox == [])
        && ReadsWhenEmpty(Apply(h, steps[0]), steps[1..]))
  }

  /** Whatever was delivered, or can be, is a job of this process or of the starting log. */
  ghost predicate Sourced(h: Hub, earlier: set<string>) {
    && Sorted(h.log) && Tracked(h) && h.delivered <= h.published + earlier
    && (forall e :: e in h.log && IsResult(h, e) ==> e.job in h.published + earlier)
  }

  lemma {:induction false} FetchedIsSourced(h: Hub, recipients: seq<string>, failing: set<string>, earlier: set<string>)
    requires Sorted(h.log) && forall e :: e in h.log && IsResult(h, e) ==> e.job in h.published + earlier
    ensures JobsIn(Fetched(h, recipients, failing)) <= h.published + earlier
    decreases |recipients|
  {
    if recipients != [] {
      var k := KeyFor(h, recipients[0]);
      ReadOneAdds(h, recipients[0], failing);
      FetchedIsSourced(ReadOne(h, recipients[0], failing), recipients[1..], failing, earlier);
      FetchSplits(h.log, k, CursorOf(h.cursors, k), READ_LIMIT);
    }
  }

  lemma StepSourced(h: Hub, step: Step, earlier: set<string>)
    requires Sourced(h, earlier) && Enabled(h, step)
    ensures Sourced(Apply(h, step), earlier)
  {
    StepCopies(h, step);
    if step.ReadMessages? {
      ReadAllAdds(h, step.recipients, step.failing);
      FetchedIsSourced(h, step.recipients, step.failing, earlier);
    }
  }

  lemma {:induction false} FreshRunNeverRepeats(h: Hub, steps: seq<Step>, final: Hub, earlier: set<string>)
    requires Sourced(h, earlier) && Run(h, steps, final) && FreshIds(steps, earlier) && ReadsWhenEmpty(h, steps)
    ensures NeverRepeats(h, steps)
    decreases |steps|
  {
    if steps != [] {
      assert steps[0] in steps;
      StepSourced(h, steps[0], earlier);
      FreshRunNeverRepeats(Apply(h, steps[0]), steps[1..], final, earlier);
    }
  }

  /**
   The waiter's own discipline suffices: from any durable log, as long as this process issues
   no job id under which that log holds a result of the task, and reads messages only when the
   mailbox is empty, no id is handed out twice.
   */
  lemma DeliveredExactlyOnce(task: string, log: seq<Event>, steps: seq<Step>, h: Hub)
    requires Sorted(log) && Run(Start(task, log), steps, h)
    requires FreshIds(steps, JobsOf(task, log)) && ReadsWhenEmpty(Start(task, log), steps)
    ensures Once(h) && Distinct(Ids(h.handed))
  {
    FreshRunNeverRepeats(Start(task, log), steps, h, JobsOf(task, log));
    HandedOnceIff(task, log, steps, h);
  }

  // ---- Without the conditions ----

  /**
   Job ids come from a counter that restarts with the process, while messages survive it.
   For every log that opens with a usable result for this task, a run that recovers that
   message and then publishes a new job under the same id hands out two results under it.
   */
  lemma ReusedIdIsHandedTwice(task: string, e: Event, rest: seq<Event>) returns (steps: seq<Step>, h: Hub)
    requires Sorted([e] + rest) && e.task == task && e.kind == RESULT_KIND && Usable(e)
    ensures Run(Start(task, [e] + rest), steps, h) && h.handed == [Recovered(e), Posted(e.job)]
  {
    var h0 := Start(task, [e] + rest);
    var read := ReadMessages([e.to], {});
    FirstReadRecovers(h0, e, rest);
    assert [e.to][1..] == [];
    assert ReadAll(h0, [e.to], {}) == ReadOne(h0, e.to, {});
    var h1 := Apply(h0, read);
    assert h1.handed == [Recovered(e)];
    var h2 := Apply(h1, Publish(e.job));
    h := Apply(h2, PopMailbox(0));
    steps := [read, Publish(e.job), PopMailbox(0)];
    RunOfThree(h0, steps, h);
  }

  lemma RunOfThree(h: Hub, steps: seq<Step>, final: Hub)
    requires |steps| == 3 && Enabled(h, steps[0])
    requires var h1 := Apply(h, steps[0]);
             && Enabled(h1, steps[1])
             && var h2 := Apply(h1, steps[1]);
                Enabled(h2, steps[2]) && final == Apply(h2, steps[2])
    ensures Run(h, steps, final)
  {
    assert steps[1..][1..][1..] == [];
    var h2 := Apply(Apply(h, steps[0]), steps[1]);
    assert Run(h2, steps[1..][1..], final);
    assert Run(Apply(h, steps[0]), steps[1..], final);
  }

  lemma FirstReadRecovers(h: Hub, e: Event, rest: seq<Event>)
    requires h.log == [e] + rest && Sorted(h.log) && h.cursors == map[]
    requires h.delivered == {} && h.recovered == [] && IsResult(h, e)
    ensures var h' := ReadOne(h, e.to, {});
            && h' == h.(cursors := h'.cursors, delivered := h'.delivered, recovered := h'.recovered)
            && h'.recovered != [] && h'.recovered[0] == e
  {
    var k := KeyFor(h, e.to);
    MatchingMembers(h.log, k);
    NothingUpTo(Matching(h.log, k), 0);
    assert Matching(h.log, k)[0] == e;
    ReadExtendsPrefix(h.log, k, h.cursors, READ_LIMIT);
    var batch := Fetch(h.log, k, 0, READ_LIMIT);
    AbsorbAdds(h.(cursors := AfterRead(h.cursors, k, batch).value), batch);
  }

  /**
   The pop and the read must be one step. If a job publishes and sends after the waiter
   found the mailbox empty, a read of that message buffers a result that is also in the
   mailbox: from every state, such a late read hands the job out a second time.
   */
  lemma LateReadIsHandedTwice(h: Hub, e: Event) returns (final: Hub)
    requires h.mailbox == [] && h.recovered == []
    requires IsResult(h, e) && e.job !in h.published && e.job !in h.delivered
    requires Sorted(h.log + [e]) && Beyond(Matching(h.log, KeyFor(h, e.to)), CursorOf(h.cursors, KeyFor(h, e.to))) == []
    requires CursorOf(h.cursors, KeyFor(h, e.to)) < Ord(e)
    ensures Run(h, [Publish(e.job), SendMessage(e), ReadMessages([e.to], {}), PopMailbox(0)], final)
    ensures final.handed == h.handed + [Recovered(e), Posted(e.job)]
  {
    var h1 := Apply(h, Publish(e.job));
    var h2 := Apply(h1, SendMessage(e));
    LateReadBuffers(h2, h.log, e);
    assert [e.to][1..] == [];
    assert ReadAll(h2, [e.to], {}) == ReadOne(h2, e.to, {});
    var h3 := Apply(h2, ReadMessages([e.to], {}));
    assert h3.mailbox == [e.job] && h3.handed == h.handed + [Recovered(e)];
    final := Apply(h3, PopMailbox(0));
    assert h3.handed + [Posted(h3.mailbox[0])] == h.handed + [Recovered(e), Posted(e.job)];
    var rest := [SendMessage(e), ReadMessages([e.to], {}), PopMailbox(0)];
    RunOfThree(h1, rest, final);
    assert [Publish(e.job), SendMessage(e), ReadMessages([e.to], {}), PopMailbox(0)][1..] == rest;
  }

  lemma LateReadBuffers(h: Hub, log: seq<Event>, e: Event)
    requires h.log == log + [e] && Sorted(h.log) && IsResult(h, e) && e.job !in h.delivered && h.recovered == []
    requires Beyond(Matching(log, KeyFor(h, e.to)), CursorOf(h.cursors, KeyFor(h, e.to))) == []
    requires CursorOf(h.cursors, KeyFor(h, e.to)) < Ord(e)
    ensures ReadOne(h, e.to, {})
            == h.(cursors := h.cursors[KeyFor(h, e.to) := Ord(e)],
                  delivered := h.delivered + {e.job}, recovered := [e])
  {
    var k := KeyFor(h, e.to);
    var cursor := CursorOf(h.cursors, k);
    LateFetch(log, e, k, cursor);
    assert e in h.log;
    assert AfterRead(h.cursors, k, [e]) == Ok(h.cursors[k := Ord(e)]);
    AbsorbOne(h.(cursors := h.cursors[k := Ord(e)]), e);
    assert ReadOne(h, e.to, {}) == Absorb(h.(cursors := h.cursors[k := Ord(e)]), [e]);
  }

  lemma LateFetch(log: seq<Event>, e: Event, k: Key, cursor: nat)
    requires Beyond(Matching(log, k), cursor) == [] && Matches(e, k) && cursor < Ord(e)
    ensures Fetch(log + [e], k, cursor, READ_LIMIT) == [e]
  {
    MatchingAppend(log, e, k);
    BeyondAppend(Matching(log, k), e, cursor);
    assert [] + [e] == [e];
  }

  lemma AbsorbOne(h: Hub, e: Event)
    requires Usable(e) && e.job !in h.delivered && h.recovered == []
    ensures Absorb(h, [e]) == h.(delivered := h.delivered + {e.job}, recovered := [e])
  {
    assert [e][1..] == [] && h.recovered + [e] == [e];
  }

  lemma {:induction false} BeyondAppend(events: seq<Event>, e: Event, cursor: nat)
    requires cursor < Ord(e)
    ensures Beyond(events + [e], cursor) == Beyond(events, cursor) + [e]
  {
    if events != [] {
      assert (events + [e])[1..] == events[1..] + [e];
      BeyondAppend(events[1..], e, cursor);
    }
  }

  // ---- The mutable side of the bus ----

  class ResultHub {
    const task: string
    var mailbox: seq<string>
    var delivered: set<string>
    var recovered: seq<Event>
    var cursors: Cursors
    ghost var published: set<string>
    ghost var log: seq<Event>
    ghost var handed: seq<Delivery>

    ghost function View(): Hub
      reads this
    {
      Hub(task, mailbox, published, delivered, recovered, log, cursors, handed)
    }

    constructor (task: string, ghost log: seq<Event>)
      ensures View() == Start(task, log)
    {
      this.task := task;
      mailbox, delivered, recovered, cursors := [], {}, [], map[];
      published, this.log, handed := {}, log, [];
    }

    method PopReadyResult(i: nat) returns (job: string)
      requires i < |mailbox|
      modifies this
      ensures View() == Apply(old(View()), PopMailbox(i)) && job == old(mailbox)[i]
    {
      job := mailbox[i];
      mailbox := mailbox[..i] + mailbox[i + 1..];
      delivered := delivered + {job};
      handed := handed + [Posted(job)];
    }

    /** `batches` are what the store returned for the recipients, in order; a recipient
        whose read failed has none. Returns the one result this call hands out, if any. */
    method ReconcileFromMessages(recipients: seq<string>, batches: seq<Option<seq<Event>>>)
        returns (result: Option<Event>)
      requires |batches| == |recipients| && Distinct(recipients)
      requires ContractReads(View(), recipients, batches)
      modifies this
      ensures View() == Reconciled(old(View()), recipients, Failing(recipients, batches))
      ensures result.None? <==> handed == old(handed)
      ensures result.Some? ==> handed == old(handed) + [Recovered(result.value)]
    {
      ghost var failing := Failing(recipients, batches);
      if recovered == [] {
        ghost var before := View();
        for n := 0 to |recipients|
          invariant handed == old(handed)
          invariant ReadAll(before, recipients, failing) == ReadAll(View(), recipients[n..], failing)
          invariant ContractReads(View(), recipients[n..], batches[n..])
        {
          FailingIsNone(recipients, batches, n);
          NextRead(View(), recipients, batches, failing, n);
          if batches[n].Some? {
            BufferBatch(recipients[n], batches[n].value);
          }
        }
        assert recipients[|recipients|..] == [];
      }
      if recovered == [] {
        return None;
      }
      result := Some(recovered[0]);
      recovered := recovered[1..];
      handed := handed + [Recovered(result.value)];
    }

    method BufferBatch(agent: string, batch: seq<Event>)
      requires AfterRead(cursors, KeyFor(View(), agent), batch).Ok?
      modifies this`cursors, this`delivered, this`recovered
      ensures var after := AfterRead(old(cursors), KeyFor(old(View()), agent), batch).value;
              View() == Absorb(old(View()).(cursors := after), batch)
    {
      if batch != [] {
        var outcome := LastOrdinal(batch);
        cursors := cursors[Key(agent, Some(task), Some(RESULT_KIND)) := outcome.value.value];
      }
      ghost var moved := View();
      for i := 0 to |batch|
        invariant cursors == moved.cursors
        invariant Absorb(moved, batch) == Absorb(View(), batch[i..])
      {
        assert batch[i..][1..] == batch[i + 1..];
        if batch[i].usable && batch[i].job != "" && batch[i].job !in delivered {
          delivered := delivered + {batch[i].job};
          recovered := recovered + [batch[i]];
        }
      }
      assert batch[|batch|..] == [];
    }
  }

  /** Recipients whose read failed. */
  function Failing(recipients: seq<string>, batches: seq<Option<seq<Event>>>): set<string>
    requires |batches| == |recipients|
  {
    set i | 0 <= i < |recipients| && batches[i].None? :: recipients[i]
  }

  /** Each successful read is what a contract-keeping store returns at that point. */
  ghost predicate ContractReads(h: Hub, recipients: seq<string>, batches: seq<Option<seq<Event>>>)
    requires |batches| == |recipients|
    decreases |recipients|
  {
    recipients == [] ||
    (var k := KeyFor(h, recipients[0]);
        var batch := Fetch(h.log, k, CursorOf(h.cursors, k), READ_LIMIT);
        && (batches[0].Some? ==> batches[0].value == batch && AfterRead(h.cursors, k, batch).Ok?)
        && ContractReads(if batches[0].None? then h
             else Absorb(h.(cursors := AfterRead(h.cursors, k, batch).value), batch),
                         recipients[1..], batches[1..]))
  }

  /** What is left to read after the n-th recipient, given what the store returned for it. */
  lemma NextRead(h: Hub, recipients: seq<string>, batches: seq<Option<seq<Event>>>, failing: set<string>, n: nat)
    requires |batches| == |recipients| && n < |recipients|
    requires ContractReads(h, recipients[n..], batches[n..])
    requires recipients[n] in failing <==> batches[n].None?
    ensures batches[n].Some? ==> AfterRead(h.cursors, KeyFor(h, recipients[n]), batches[n].value).Ok?
    ensures var h' := if batches[n].None? then h
                      else Absorb(h.(cursors := AfterRead(h.cursors, KeyFor(h, recipients[n]), batches[n].value).value),
                                  batches[n].value);
            && ReadAll(h, recipients[n..], failing) == ReadAll(h', recipients[n + 1..], failing)
            && ContractReads(h', recipients[n + 1..], batches[n + 1..])
  {
    assert recipients[n..][0] == recipients[n] && batches[n..][0] == batches[n];
    assert recipients[n..][1..] == recipients[n + 1..] && batches[n..][1..] == batches[n + 1..];
  }

  lemma FailingIsNone(recipients: seq<string>, batches: seq<Option<seq<Event>>>, n: nat)
    requires |batches| == |recipients| && n < |recipients|
    requires Distinct(recipients)
    ensures recipients[n] in Failing(recipients, batches) <==> batches[n].None?
  {}
}
