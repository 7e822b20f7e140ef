/**
 Which results recovery from the message channel keeps. Results are told apart, not only
 their job ids: a job's own result always reaches the waiter through the mailbox, while of
 the messages an earlier process left behind only the first under an id is kept, and the
 cursor moves past the others.
 */
module ResultRecovery {
  import opened Common
  import opened AgentComms
  import opened ResultDelivery

  /** A usable result that its recipient's cursor has passed. */
  ghost predicate Passed(h: Hub, e: Event) {
    e in h.log && IsResult(h, e) && Ord(e) <= CursorOf(h.cursors, KeyFor(h, e.to))
  }

  /** The message waits in the buffer or is what the waiter was handed. */
  predicate Kept(h: Hub, e: Event) { e in h.recovered || Recovered(e) in h.handed }

  /** Every usable message of `past` that was read is kept. */
  ghost predicate AllKept(h: Hub, past: seq<Event>) {
    forall e :: e in past && Passed(h, e) ==> Kept(h, e)
  }

  /** The first usable message of a job in a batch. */
  function FirstOf(batch: seq<Event>, job: string): Option<Event>
    decreases |batch|
  {
    if batch == [] then None
    else if Usable(batch[0]) && batch[0].job == job then Some(batch[0])
    else FirstOf(batch[1..], job)
  }

  /** A read, with the buffer empty, that fetches a usable message of `past` whose job was delivered
      before, or which is not the first of its job. */
  ghost predicate Drops(h: Hub, step: Step, past: seq<Event>) {
    && step.ReadMessages? && h.recovered == []
    && var fetched := Fetched(h, step.recipients, step.failing);
       exists e :: e in fetched && Usable(e) && e in past
                   && (e.job in h.delivered || FirstOf(fetched, e.job) != Some(e))
  }

  ghost predicate NeverDrops(h: Hub, steps: seq<Step>, past: seq<Event>)
    decreases |steps|
  {
    steps == []
    || (Enabled(h, steps[0]) && !Drops(h, steps[0], past) && NeverDrops(Apply(h, steps[0]), steps[1..], past))
  }

  lemma {:induction false} FirstsMembers(delivered: set<string>, batch: seq<Event>, e: Event)
    ensures e in Firsts(delivered, batch) <==> e.job !in delivered && FirstOf(batch, e.job) == Some(e)
    decreases |batch|
  {
    if batch != [] {
      if Usable(batch[0]) && batch[0].job !in delivered {
        FirstsMembers(delivered + {batch[0].job}, batch[1..], e);
      } else {
        FirstsMembers(delivered, batch[1..], e);
      }
    }
  }

  lemma {:induction false} FirstOfIsIn(batch: seq<Event>, job: string)
    ensures FirstOf(batch, job).Some? ==> FirstOf(batch, job).value in batch && Usable(FirstOf(batch, job).value)
    decreases |batch|
  {
    if batch != [] {
      FirstOfIsIn(batch[1..], job);
    }
  }

  // ---- What a read passes ----

  /** The log is sorted and every cursor stands at one of its messages. */
  ghost predicate Readable(h: Hub) {
    Sorted(h.log) && forall k :: k in h.cursors ==> exists e :: e in h.log && e.ordinal == Some(h.cursors[k])
  }

  /** From `h` to `h'` exactly the usable messages of `fetched` are passed, none of them before. */
  ghost predicate Moves(h: Hub, h': Hub, fetched: seq<Event>) {
    && h'.log == h.log && h'.task == h.task
    && (forall e :: e in fetched && Usable(e) ==> !Passed(h, e))
    && (forall e :: Passed(h', e) <==> Passed(h, e) || (e in fetched && Usable(e)))
  }

  lemma MovesOn(h: Hub, h1: Hub, h2: Hub, a: seq<Event>, b: seq<Event>)
    requires Moves(h, h1, a) && Moves(h1, h2, b)
    ensures Moves(h, h2, a + b)
  {}

  lemma UpToMembers(log: seq<Event>, k: Key, cursor: nat)
    requires Sorted(log)
    ensures forall e :: e in UpTo(Matching(log, k), cursor) <==> e in log && Matches(e, k) && Ord(e) <= cursor
  {
    var m := Matching(log, k);
    MatchingMembers(log, k);
    MatchingSorted(log, k);
    CursorSplits(m, cursor);
    forall e | e in log && Matches(e, k) && Ord(e) <= cursor ensures e in UpTo(m, cursor) {
      assert e in m;
    }
    forall e | e in UpTo(m, cursor) ensures e in m {
      assert e in UpTo(m, cursor) + Beyond(m, cursor);
    }
  }

  lemma ReadOneMoves(h: Hub, agent: string, failing: set<string>)
    requires Readable(h)
    ensures Readable(ReadOne(h, agent, failing))
    ensures Moves(h, ReadOne(h, agent, failing), Batch(h, agent, failing))
  {
    var k, h' := KeyFor(h, agent), ReadOne(h, agent, failing);
    var cursor := CursorOf(h.cursors, k);
    ReadOneAdds(h, agent, failing);
    if agent !in failing {
      ReadExtendsPrefix(h.log, k, h.cursors, READ_LIMIT);
      FetchSplits(h.log, k, cursor, READ_LIMIT);
      var batch := Fetch(h.log, k, cursor, READ_LIMIT);
      AbsorbAdds(h.(cursors := AfterRead(h.cursors, k, batch).value), batch);
      PassedAfter(h, h', agent, batch);
    }
  }

  lemma PassedAfter(h: Hub, h': Hub, agent: string, batch: seq<Event>)
    requires Sorted(h.log) && h'.log == h.log && h'.task == h.task
    requires forall k :: k != KeyFor(h, agent) ==> CursorOf(h'.cursors, k) == CursorOf(h.cursors, k)
    requires var k := KeyFor(h, agent);
             && (forall e :: e in batch ==> e in h.log && Matches(e, k) && Ord(e) > CursorOf(h.cursors, k))
             && UpTo(Matching(h.log, k), CursorOf(h'.cursors, k))
                == UpTo(Matching(h.log, k), CursorOf(h.cursors, k)) + batch
    ensures Moves(h, h', batch)
  {
    var k := KeyFor(h, agent);
    UpToMembers(h.log, k, CursorOf(h.cursors, k));
    UpToMembers(h.log, k, CursorOf(h'.cursors, k));
    forall e ensures Passed(h', e) <==> Passed(h, e) || (e in batch && Usable(e)) {
      if IsResult(h, e) && e in h.log && e.to == agent {
        assert Matches(e, k);
        assert Ord(e) <= CursorOf(h'.cursors, k) <==> e in UpTo(Matching(h.log, k), CursorOf(h.cursors, k)) + batch;
      }
    }
  }

  lemma {:induction false} ReadAllMoves(h: Hub, recipients: seq<string>, failing: set<string>)
    requires Readable(h)
    ensures Readable(ReadAll(h, recipients, failing))
    ensures Moves(h, ReadAll(h, recipients, failing), Fetched(h, recipients, failing))
    decreases |recipients|
  {
    if recipients != [] {
      var h1 := ReadOne(h, recipients[0], failing);
      ReadOneMoves(h, recipients[0], failing);
      ReadAllMoves(h1, recipients[1..], failing);
      MovesOn(h, h1, ReadAll(h, recipients, failing), Batch(h, recipients[0], failing),
              Fetched(h1, recipients[1..], failing));
    }
  }

  // ---- The invariant of every run ----

  /** Messages: what was passed is delivered under its id, what is kept was passed, one per id. */
  ghost predicate Keeping(h: Hub) {
    && Readable(h) && Tracked(h)
    && (forall e :: Passed(h, e) ==> e.job in h.delivered)
    && (forall e :: Kept(h, e) ==> Passed(h, e))
    && (forall e, f :: Kept(h, e) && Kept(h, f) && e.job == f.job ==> e == f)
  }

  /** This process: its messages are of its own jobs, and each job it posted is in the mailbox or was
      handed out from there. */
  ghost predicate Owning(h: Hub, past: seq<Event>) {
    && (forall e :: e in h.log && IsResult(h, e) && e !in past ==> e.job in h.published)
    && (forall job :: Posted(job) in h.handed ==> job in h.published)
    && (forall job :: job in h.published ==> job in h.mailbox || Posted(job) in h.handed)
  }

  lemma KeptIsDelivered(h: Hub, e: Event)
    requires Tracked(h) && Kept(h, e)
    ensures e.job in h.delivered
  {
    if e in h.recovered {
      var i :| 0 <= i < |h.recovered| && h.recovered[i] == e;
      assert Jobs(h.recovered)[i] == e.job;
    } else {
      var i :| 0 <= i < |h.handed| && h.handed[i] == Recovered(e);
      assert Ids(h.handed)[i] == e.job;
    }
  }

  lemma DeliveredHow(h: Hub, job: string) returns (d: Delivery)
    requires Tracked(h) && job in h.delivered
    ensures JobOf(d) == job
    ensures if d.Posted? then d in h.handed else Kept(h, d.e)
  {
    if job in Ids(h.handed) {
      var i :| 0 <= i < |h.handed| && Ids(h.handed)[i] == job;
      d := h.handed[i];
    } else {
      var i :| 0 <= i < |h.recovered| && Jobs(h.recovered)[i] == job;
      d := Recovered(h.recovered[i]);
    }
  }

  /** A read keeps what it kept before, and the first message of each job not delivered. */
  lemma ReadKeeps(h: Hub, recipients: seq<string>, failing: set<string>, e: Event)
    ensures var fetched := Fetched(h, recipients, failing);
            Kept(ReadAll(h, recipients, failing), e) <==>
            Kept(h, e) || (e.job !in h.delivered && FirstOf(fetched, e.job) == Some(e))
  {
    ReadAllAdds(h, recipients, failing);
    FirstsMembers(h.delivered, Fetched(h, recipients, failing), e);
  }

  lemma PopKeeps(h: Hub)
    ensures forall e :: Kept(PopRecovered(h), e) <==> Kept(h, e)
    ensures forall job :: Posted(job) in PopRecovered(h).handed <==> Posted(job) in h.handed
    ensures forall e :: Passed(PopRecovered(h), e) <==> Passed(h, e)
  {
    if h.recovered != [] {
      assert h.recovered == [h.recovered[0]] + h.recovered[1..];
    }
  }

  lemma ReadKeeping(h: Hub, recipients: seq<string>, failing: set<string>)
    requires Keeping(h)
    ensures Keeping(ReadAll(h, recipients, failing))
  {
    var h', fetched := ReadAll(h, recipients, failing), Fetched(h, recipients, failing);
    ReadAllAdds(h, recipients, failing);
    ReadAllMoves(h, recipients, failing);
    ReadTracked(h, h', fetched);
    forall e ensures Kept(h', e) <==> Kept(h, e) || (e.job !in h.delivered && FirstOf(fetched, e.job) == Some(e)) {
      ReadKeeps(h, recipients, failing, e);
    }
    forall e | Kept(h', e) ensures Passed(h', e) {
      FirstOfIsIn(fetched, e.job);
    }
    forall e | Kept(h, e) ensures e.job in h.delivered {
      KeptIsDelivered(h, e);
    }
  }

  lemma PopKeeping(h: Hub)
    requires Keeping(h)
    ensures Keeping(PopRecovered(h))
  {
    PopKeeps(h);
    PopRecoveredCopies(h);
  }

  /** The same messages passed and kept. */
  lemma SameKeeping(h: Hub, h': Hub)
    requires Keeping(h) && Readable(h') && Tracked(h') && h.delivered <= h'.delivered
    requires forall e :: Passed(h', e) <==> Passed(h, e)
    requires forall e :: Kept(h', e) <==> Kept(h, e)
    ensures Keeping(h')
  {}

  lemma SendPasses(h: Hub, e: Event)
    requires Readable(h) && Enabled(h, SendMessage(e))
    ensures Readable(Apply(h, SendMessage(e)))
    ensures forall x :: Passed(Apply(h, SendMessage(e)), x) <==> Passed(h, x)
  {
    var h' := Apply(h, SendMessage(e));
    NewIsUnread(h, e);
    forall k | k in h'.cursors ensures exists x :: x in h'.log && x.ordinal == Some(h'.cursors[k]) {
      var x :| x in h.log && x.ordinal == Some(h.cursors[k]);
      assert x in h'.log;
    }
  }

  lemma NewIsUnread(h: Hub, e: Event)
    requires Readable(h) && Sorted(h.log + [e])
    ensures Ord(e) > CursorOf(h.cursors, KeyFor(h, e.to))
  {
    var k, log := KeyFor(h, e.to), h.log + [e];
    assert log[|h.log|] == e && e in log;
    if k in h.cursors {
      var x :| x in h.log && x.ordinal == Some(h.cursors[k]);
      var i :| 0 <= i < |h.log| && h.log[i] == x;
      assert log[i] == x && Ord(log[i]) < Ord(log[|h.log|]);
    }
  }

  /** A step other than a read passes and keeps no message. */
  lemma LocalKeeping(h: Hub, step: Step)
    requires Keeping(h) && Enabled(h, step) && !step.ReadMessages?
    ensures Keeping(Apply(h, step))
    ensures forall e :: Kept(Apply(h, step), e) <==> Kept(h, e)
    ensures forall e :: Passed(Apply(h, step), e) <==> Passed(h, e)
  {
    var h' := Apply(h, step);
    StepCopies(h, step);
    if step.SendMessage? {
      SendPasses(h, step.e);
    }
    forall e ensures Kept(h', e) <==> Kept(h, e) {
      if step.PopMailbox? {
        assert h'.handed == h.handed + [Posted(h.mailbox[step.i])];
      }
    }
    SameKeeping(h, h');
  }

  lemma StepKeeping(h: Hub, step: Step)
    requires Keeping(h) && Enabled(h, step)
    ensures Keeping(Apply(h, step))
  {
    match step
    case ReadMessages(recipients, failing) =>
      if h.recovered == [] {
        ReadKeeping(h, recipients, failing);
        PopKeeping(ReadAll(h, recipients, failing));
      } else {
        PopKeeping(h);
      }
    case _ => LocalKeeping(h, step);
  }

  lemma PopOwning(h: Hub, i: nat, past: seq<Event>)
    requires Owning(h, past) && Tracked(h) && i < |h.mailbox|
    ensures Owning(Apply(h, PopMailbox(i)), past)
  {
    var h', job := Apply(h, PopMailbox(i)), h.mailbox[i];
    assert h.mailbox == h.mailbox[..i] + [job] + h.mailbox[i + 1..];
    assert h'.handed == h.handed + [Posted(job)] && Posted(job) in h'.handed;
  }

  lemma StepOwning(h: Hub, step: Step, past: seq<Event>)
    requires Owning(h, past) && Tracked(h) && Enabled(h, step)
    ensures Owning(Apply(h, step), past)
  {
    match step
    case Publish(_) =>
    case SendMessage(_) =>
    case PopMailbox(i) =>
      PopOwning(h, i, past);
    case ReadMessages(recipients, failing) =>
      ReadAllAdds(h, recipients, failing);
      PopKeeps(h);
      PopKeeps(ReadAll(h, recipients, failing));
  }

  lemma {:induction false} RunKeeping(h: Hub, steps: seq<Step>, final: Hub, past: seq<Event>)
    requires Keeping(h) && Owning(h, past) && Run(h, steps, final)
    ensures Keeping(final) && Owning(final, past) && final.task == h.task && h.log <= final.log
    decreases |steps|
  {
    if steps != [] {
      StepKeeping(h, steps[0]);
      StepOwning(h, steps[0], past);
      LogGrows(h, steps[0]);
      RunKeeping(Apply(h, steps[0]), steps[1..], final, past);
    }
  }

  lemma LogGrows(h: Hub, step: Step)
    requires Enabled(h, step)
    ensures Apply(h, step).task == h.task && h.log <= Apply(h, step).log
  {
    if step.ReadMessages? {
      ReadAllAdds(h, step.recipients, step.failing);
    }
  }

  lemma StartKeeping(task: string, log: seq<Event>)
    requires Sorted(log)
    ensures Keeping(Start(task, log)) && Owning(Start(task, log), log) && AllKept(Start(task, log), log)
  {}

  // ---- Exactly when a message is lost ----

  /** What a step adds to the messages passed and kept. */
  lemma StepAdds(h: Hub, step: Step)
    requires Keeping(h) && Enabled(h, step)
    ensures var h' := Apply(h, step);
            var fetched := if step.ReadMessages? && h.recovered == []
                           then Fetched(h, step.recipients, step.failing) else [];
            && (forall e :: e in fetched && Usable(e) ==> !Passed(h, e))
            && (forall e :: Passed(h', e) <==> Passed(h, e) || (e in fetched && Usable(e)))
            && (forall e :: Kept(h', e) <==>
                            Kept(h, e) || (e.job !in h.delivered && FirstOf(fetched, e.job) == Some(e)))
  {
    match step
    case ReadMessages(recipients, failing) =>
      if h.recovered == [] {
        ReadAllMoves(h, recipients, failing);
        forall e ensures Kept(ReadAll(h, recipients, failing), e) <==>
                         Kept(h, e) || (e.job !in h.delivered
                                        && FirstOf(Fetched(h, recipients, failing), e.job) == Some(e)) {
          ReadKeeps(h, recipients, failing, e);
        }
        PopKeeps(ReadAll(h, recipients, failing));
      } else {
        PopKeeps(h);
      }
    case _ => LocalKeeping(h, step);
  }

  /** A step loses a message of `past` if and only if it drops one. */
  lemma StepKeepsIff(h: Hub, step: Step, past: seq<Event>)
    requires Keeping(h) && AllKept(h, past) && Enabled(h, step)
    ensures AllKept(Apply(h, step), past) <==> !Drops(h, step, past)
  {
    StepAdds(h, step);
  }

  lemma LossStays(h: Hub, step: Step, e: Event)
    requires Keeping(h) && Enabled(h, step) && Passed(h, e) && !Kept(h, e)
    ensures Passed(Apply(h, step), e) && !Kept(Apply(h, step), e)
  {
    StepAdds(h, step);
    if step.ReadMessages? && h.recovered == [] {
      FirstOfIsIn(Fetched(h, step.recipients, step.failing), e.job);
    }
  }

  /** A message that was passed and not kept is never handed out, whatever follows. */
  lemma {:induction false} LossIsFinal(h: Hub, steps: seq<Step>, final: Hub, e: Event)
    requires Keeping(h) && Run(h, steps, final) && Passed(h, e) && !Kept(h, e)
    ensures Passed(final, e) && !Kept(final, e)
    decreases |steps|
  {
    if steps != [] {
      LossStays(h, steps[0], e);
      StepKeeping(h, steps[0]);
      LossIsFinal(Apply(h, steps[0]), steps[1..], final, e);
    }
  }

  lemma {:induction false} RunKeepsIff(h: Hub, steps: seq<Step>, final: Hub, past: seq<Event>)
    requires Keeping(h) && AllKept(h, past) && Run(h, steps, final)
    ensures AllKept(final, past) <==> NeverDrops(h, steps, past)
    decreases |steps|
  {
    if steps != [] {
      var h' := Apply(h, steps[0]);
      StepKeepsIff(h, steps[0], past);
      StepKeeping(h, steps[0]);
      if AllKept(h', past) {
        RunKeepsIff(h', steps[1..], final, past);
      } else {
        var e :| e in past && Passed(h', e) && !Kept(h', e);
        LossIsFinal(h', steps[1..], final, e);
      }
    }
  }

  /**
   Over every run from every sorted log: each usable result of the starting log that its
   recipient's cursor has passed was handed out or is buffered, if and only if no read with an
   empty buffer fetched one whose job was already delivered or which was not the first of its job.
   */
  lemma KeptExactly(task: string, log: seq<Event>, steps: seq<Step>, h: Hub)
    requires Sorted(log) && Run(Start(task, log), steps, h)
    ensures AllKept(h, log) <==> NeverDrops(Start(task, log), steps, log)
  {
    StartKeeping(task, log);
    RunKeepsIff(Start(task, log), steps, h, log);
  }

  /** No two messages of `past` that were passed share a job id. */
  ghost predicate DistinctIds(h: Hub, past: seq<Event>) {
    forall e, f :: e in past && f in past && Passed(h, e) && Passed(h, f) && e.job == f.job ==> e == f
  }

  lemma {:induction false} PublishedBySteps(h: Hub, steps: seq<Step>, final: Hub, job: string)
    requires Run(h, steps, final) && job in final.published
    ensures job in h.published || Publish(job) in steps
    decreases |steps|
  {
    if steps != [] {
      var h' := Apply(h, steps[0]);
      PublishedBySteps(h', steps[1..], final, job);
      if steps[0].ReadMessages? {
        ReadAllAdds(h, steps[0].recipients, steps[0].failing);
      }
      assert steps == [steps[0]] + steps[1..];
    }
  }

  /** If this process reuses no id of the starting log, that is so if and only if no two of those
      messages share an id. */
  lemma FreshKeptIff(task: string, log: seq<Event>, steps: seq<Step>, h: Hub)
    requires Sorted(log) && Run(Start(task, log), steps, h) && FreshIds(steps, JobsOf(task, log))
    ensures AllKept(h, log) <==> DistinctIds(h, log)
  {
    StartKeeping(task, log);
    RunKeeping(Start(task, log), steps, h, log);
    if DistinctIds(h, log) {
      forall e | e in log && Passed(h, e) ensures Kept(h, e) {
        var d := DeliveredHow(h, e.job);
        assert e.job in JobsOf(task, log);
        if e.job in h.published {
          PublishedBySteps(Start(task, log), steps, h, e.job);
        }
        assert d == Recovered(d.e) && Passed(h, d.e);
      }
    }
  }

  /** A result this process posted is never lost: it is in the mailbox or was handed out from there. */
  lemma OwnResultsKept(task: string, log: seq<Event>, steps: seq<Step>, h: Hub, job: string)
    requires Sorted(log) && Run(Start(task, log), steps, h) && job in h.published
    ensures job in h.mailbox || Posted(job) in h.handed
  {
    StartKeeping(task, log);
    RunKeeping(Start(task, log), steps, h, log);
  }

  /** By job id alone nothing is lost: some result was handed out or buffered under the id of every
      usable message that was passed. */
  lemma NothingLost(task: string, log: seq<Event>, steps: seq<Step>, h: Hub, e: Event)
    requires Sorted(log) && Run(Start(task, log), steps, h) && Passed(h, e)
    ensures e.job in Ids(h.handed) || e.job in Jobs(h.recovered)
  {
    StartKeeping(task, log);
    RunKeeping(Start(task, log), steps, h, log);
  }

  /**
   Two earlier processes may leave two results under one id. For every log that opens with two
   such messages to one recipient, the first read hands out the first, and moves the cursor past
   the second, which is then lost for good.
   */
  lemma SharedIdIsLost(task: string, e: Event, f: Event, rest: seq<Event>) returns (h: Hub)
    requires Sorted([e, f] + rest) && e.task == f.task == task && e.kind == f.kind == RESULT_KIND
    requires Usable(e) && Usable(f) && e.to == f.to && e.job == f.job
    ensures Run(Start(task, [e, f] + rest), [ReadMessages([e.to], {})], h)
    ensures h.handed == [Recovered(e)] && h.mailbox == [] && Passed(h, f) && !Kept(h, f)
    ensures forall steps, final :: Run(h, steps, final) ==> Passed(final, f) && !Kept(final, f)
  {
    var log := [e, f] + rest;
    var h0, read := Start(task, log), ReadMessages([e.to], {});
    assert log == [e] + ([f] + rest);
    StartKeeping(task, log);
    FirstReadRecovers(h0, e, [f] + rest);
    assert [e.to][1..] == [];
    assert ReadAll(h0, [e.to], {}) == ReadOne(h0, e.to, {});
    h := Apply(h0, read);
    assert Run(h, [], h) && [read][1..] == [];
    StepKeeping(h0, read);
    TwinIsPassed(h0, e, f, rest);
    PopKeeps(ReadOne(h0, e.to, {}));
    assert Kept(h, e) && e != f by {
      assert log[0] == e && log[1] == f;
    }
    forall steps, final | Run(h, steps, final) ensures Passed(final, f) && !Kept(final, f) {
      LossIsFinal(h, steps, final, f);
    }
  }

  lemma TwinIsPassed(h: Hub, e: Event, f: Event, rest: seq<Event>)
    requires h.log == [e, f] + rest && Readable(h) && h.cursors == map[]
    requires IsResult(h, e) && IsResult(h, f) && e.to == f.to
    ensures Passed(ReadOne(h, e.to, {}), f)
  {
    var k := KeyFor(h, e.to);
    TwinIsFetched(h.log, e, f, rest, k);
    ReadExtendsPrefix(h.log, k, h.cursors, READ_LIMIT);
    ReadOneMoves(h, e.to, {});
  }

  lemma TwinIsFetched(log: seq<Event>, e: Event, f: Event, rest: seq<Event>, k: Key)
    requires log == [e, f] + rest && Sorted(log) && Matches(e, k) && Matches(f, k)
    ensures f in Fetch(log, k, 0, READ_LIMIT)
  {
    var m, tail := Matching(log, k), log[1..];
    assert log[0] == e && tail[0] == f && tail[1..] == rest;
    assert Matching(tail, k) == [f] + Matching(rest, k);
    assert m == [e] + Matching(tail, k);
    MatchingMembers(log, k);
    NothingUpTo(m, 0);
    assert Fetch(log, k, 0, READ_LIMIT)[1] == f;
  }
}
