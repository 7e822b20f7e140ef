/**
 What a session's message log holds of each task: without a trim everything the task added,
 and after any trims its prompt and its own report.
 */
module SessionLog {
  import opened Common
  import opened SessionHistory

  /** Everything a task adds to the log: its prompt, its turns, and a stub if none of them is a report. */
  function TaskLog(task: Task): seq<Message> {
    [Message(User, task.prompt, false)] +
    match task.outcome
    case Returned(turns, stub) => turns + (if Reports(turns) then [] else [Message(Assistant, stub, false)])
    case Interrupted(partial) => partial + (if Reports(partial) then [] else [ABORT_STUB])
    case Stranded => []
  }

  /** The last report of the turns, or else the stub. */
  function LastOr(turns: seq<Message>, stub: Message): Message {
    if turns == [] then stub
    else if turns[|turns| - 1].role == Assistant && !turns[|turns| - 1].callsTools then turns[|turns| - 1]
    else LastOr(turns[..|turns| - 1], stub)
  }

  /** What a task that ended reports. */
  function ReportOf(task: Task): Message
    requires !task.outcome.Stranded?
  {
    match task.outcome
    case Returned(turns, stub) => LastOr(turns, Message(Assistant, stub, false))
    case Interrupted(partial) => LastOr(partial, ABORT_STUB)
  }

  /** The span of task `i`: its prompt first, and its own report last of all reports in it. */
  ghost predicate HoldsTask(h: History, i: nat, task: Task) {
    && i < |h.boundaries|
    && var b := h.boundaries[i];
       && 0 <= b.start < |h.messages| && h.messages[b.start] == Message(User, task.prompt, false)
       && (b.end.None? <==> task.outcome.Stranded?)
       && (b.end.Some? ==>
             exists k :: LastReport(h.messages, b.start + 1, b.end.value, k) && h.messages[k] == ReportOf(task))
  }

  ghost predicate HoldsTasks(h: History, tasks: seq<Task>) {
    && Valid(h) && |h.boundaries| == |tasks|
    && forall i :: 0 <= i < |tasks| ==> HoldsTask(h, i, tasks[i])
  }

  lemma SpanReports(messages: seq<Message>, turns: seq<Message>)
    ensures var all := messages + turns;
            FinalReport(all, |messages|, |all| - 1).Some? <==> Reports(turns)
  {
    FoundIff(messages + turns, |messages|);
    assert (messages + turns)[|messages|..] == turns;
  }

  /** A task that is not trimmed adds exactly its own log, and a boundary around it. */
  lemma RunTaskLog(h: History, task: Task)
    requires !task.trimmed
    ensures RunTask(h, task).messages == h.messages + TaskLog(task)
    ensures var end := if task.outcome.Stranded? then None else Some(|h.messages| + |TaskLog(task)| - 1);
            RunTask(h, task).boundaries == h.boundaries + [Boundary(|h.messages|, end)]
  {
    var begun := OpenTask(h, task.prompt);
    match task.outcome
    case Returned(turns, _) => SpanReports(begun.messages, turns);
    case Interrupted(partial) => SpanReports(begun.messages, partial);
    case Stranded =>
  }

  function TaskLogs(tasks: seq<Task>): seq<seq<Message>> {
    seq(|tasks|, i requires 0 <= i < |tasks| => TaskLog(tasks[i]))
  }

  /** Over every sequence of tasks without a trim the log is what the tasks added, one after the other. */
  lemma {:induction false} RunTasksLog(h: History, tasks: seq<Task>)
    requires forall i :: 0 <= i < |tasks| ==> !tasks[i].trimmed
    ensures RunTasks(h, tasks).messages == h.messages + Flatten(TaskLogs(tasks))
    decreases |tasks|
  {
    if tasks != [] {
      RunTaskLog(h, tasks[0]);
      RunTasksLog(RunTask(h, tasks[0]), tasks[1..]);
      assert TaskLogs(tasks)[1..] == TaskLogs(tasks[1..]);
      Reassociate(h.messages, TaskLog(tasks[0]), Flatten(TaskLogs(tasks[1..])));
    }
  }

  lemma LastOrIsLast(before: seq<Message>, turns: seq<Message>, stub: Message) returns (k: nat)
    requires IsReport(stub)
    ensures var all := before + turns + (if Reports(turns) then [] else [stub]);
            LastReport(all, |before|, |all| - 1, k) && all[k] == LastOr(turns, stub)
  {
    if Reports(turns) {
      k := LastAmong(before, turns, stub);
      assert before + turns + [] == before + turns;
    } else {
      k := |before + turns|;
      NoReportNoLast(turns, stub);
    }
  }

  lemma {:induction false} NoReportNoLast(turns: seq<Message>, stub: Message)
    requires !Reports(turns)
    ensures LastOr(turns, stub) == stub
  {
    if turns != [] {
      assert forall k :: 0 <= k < |turns| - 1 ==> turns[..|turns| - 1][k] == turns[k];
      NoReportNoLast(turns[..|turns| - 1], stub);
    }
  }

  lemma {:induction false} LastAmong(before: seq<Message>, turns: seq<Message>, stub: Message) returns (k: nat)
    requires Reports(turns)
    ensures var all := before + turns;
            LastReport(all, |before|, |all| - 1, k) && all[k] == LastOr(turns, stub)
    decreases |turns|
  {
    var all := before + turns;
    if IsReport(turns[|turns| - 1]) {
      k := |all| - 1;
    } else {
      var front := turns[..|turns| - 1];
      var i :| 0 <= i < |turns| && turns[i].role == Assistant && !turns[i].callsTools;
      assert IsReport(front[i]);
      k := LastAmong(before, front, stub);
      assert forall j :: 0 <= j < |before + front| ==> all[j] == (before + front)[j];
    }
  }

  /** A longer log leaves what it held of the earlier tasks as it was. */
  lemma StillHolds(h: History, h': History, i: nat, task: Task)
    requires Valid(h) && HoldsTask(h, i, task) && h.messages <= h'.messages
    requires i < |h'.boundaries| && h'.boundaries[i] == h.boundaries[i]
    ensures HoldsTask(h', i, task)
  {
    var b := h.boundaries[i];
    if b.end.Some? {
      var k :| LastReport(h.messages, b.start + 1, b.end.value, k) && h.messages[k] == ReportOf(task);
      assert LastReport(h'.messages, b.start + 1, b.end.value, k);
    }
  }

  lemma RunTaskHolds(h: History, task: Task, tasks: seq<Task>)
    requires HoldsTasks(h, tasks) && !task.trimmed
    ensures HoldsTasks(RunTask(h, task), tasks + [task])
  {
    var h', n := RunTask(h, task), |tasks|;
    RunTaskLog(h, task);
    RunTaskValid(h, task);
    forall i | 0 <= i < n ensures HoldsTask(h', i, tasks[i]) {
      StillHolds(h, h', i, tasks[i]);
    }
    NewTaskHolds(h, task);
  }

  lemma NewTaskHolds(h: History, task: Task)
    requires !task.trimmed
    ensures HoldsTask(RunTask(h, task), |h.boundaries|, task)
  {
    var before := h.messages + [Message(User, task.prompt, false)];
    RunTaskLog(h, task);
    match task.outcome
    case Returned(turns, stub) =>
      var k := LastOrIsLast(before, turns, Message(Assistant, stub, false));
      assert RunTask(h, task).messages
          == before + turns + (if Reports(turns) then [] else [Message(Assistant, stub, false)]);
    case Interrupted(partial) =>
      var k := LastOrIsLast(before, partial, ABORT_STUB);
      assert RunTask(h, task).messages == before + partial + (if Reports(partial) then [] else [ABORT_STUB]);
    case Stranded =>
  }

  lemma PieceReports(h: History, i: nat, task: Task)
    requires Valid(h) && HoldsTask(h, i, task)
    ensures var piece := Piece(h.messages, h.boundaries[i]);
            && piece != [] && piece[0] == Message(User, task.prompt, false)
            && (!task.outcome.Stranded? ==> |piece| == 2 && piece[1] == ReportOf(task) && IsReport(piece[1]))
  {
    var b := h.boundaries[i];
    PieceShape(h.messages, b);
    if b.end.Some? {
      var k :| LastReport(h.messages, b.start + 1, b.end.value, k) && h.messages[k] == ReportOf(task);
      ClosedPiece(h.messages, b, k);
    }
  }

  lemma ClosedPiece(messages: seq<Message>, b: Boundary, k: int)
    requires 0 <= b.start < |messages| && b.end.Some? && LastReport(messages, b.start + 1, b.end.value, k)
    ensures Piece(messages, b) == [messages[b.start], messages[k]]
  {
    FinalReportIsLast(messages, b.start + 1, b.end.value);
  }

  /** The history begins with task `i`'s prompt and own report at its boundary. */
  ghost predicate ShowsTask(h: History, i: nat, task: Task) {
    && i < |h.boundaries| && !task.outcome.Stranded?
    && var start := h.boundaries[i].start;
       && 0 <= start < |h.messages| - 1
       && h.messages[start] == Message(User, task.prompt, false) && h.messages[start + 1] == ReportOf(task)
  }

  /** After a trim a closed task is its prompt followed by its own report. */
  lemma TrimmedTaskReports(h: History, i: nat, task: Task)
    requires Valid(h) && TrimAssigns(h) && HoldsTask(h, i, task)
    ensures |EagerTrim(h).boundaries| == |h.boundaries| && HoldsTask(EagerTrim(h), i, task)
    ensures !task.outcome.Stranded? ==> ShowsTask(EagerTrim(h), i, task)
  {
    TrimmedAt(h, i);
    PieceReports(h, i, task);
    PlacedReports(EagerTrim(h), i, Piece(h.messages, h.boundaries[i]), task);
  }

  lemma PlacedReports(h: History, i: nat, piece: seq<Message>, task: Task)
    requires i < |h.boundaries| && SitsAt(h.messages, h.boundaries[i].start, piece)
    requires piece != [] && piece[0] == Message(User, task.prompt, false)
    requires h.boundaries[i].end
             == if task.outcome.Stranded? then None else Some(h.boundaries[i].start + |piece| - 1)
    requires !task.outcome.Stranded? ==> |piece| == 2 && piece[1] == ReportOf(task) && IsReport(piece[1])
    ensures HoldsTask(h, i, task)
    ensures !task.outcome.Stranded? ==> ShowsTask(h, i, task)
  {
    var start := h.boundaries[i].start;
    assert h.messages[start + 0] == piece[0];
    if !task.outcome.Stranded? {
      assert h.messages[start + 1] == piece[1];
      assert LastReport(h.messages, start + 1, start + 1, start + 1);
    }
  }

  lemma TrimHolds(h: History, tasks: seq<Task>)
    requires HoldsTasks(h, tasks)
    ensures HoldsTasks(EagerTrim(h), tasks)
  {
    TrimValid(h);
    if TrimAssigns(h) {
      TrimmedTaskReports(h, 0, tasks[0]);
      forall i | 0 <= i < |tasks| ensures HoldsTask(EagerTrim(h), i, tasks[i]) {
        TrimmedTaskReports(h, i, tasks[i]);
      }
    }
  }

  lemma RunTaskHoldsAny(h: History, task: Task, tasks: seq<Task>)
    requires HoldsTasks(h, tasks)
    ensures HoldsTasks(RunTask(h, task), tasks + [task])
  {
    var plain := task.(trimmed := false);
    RunTaskHolds(h, plain, tasks);
    SameTask(RunTask(h, plain), tasks, task);
    TrimHolds(RunTask(h, plain), tasks + [task]);
  }

  lemma SameTask(h: History, before: seq<Task>, task: Task)
    requires HoldsTasks(h, before + [task.(trimmed := false)])
    ensures HoldsTasks(h, before + [task])
  {
    var was, now := before + [task.(trimmed := false)], before + [task];
    forall i | 0 <= i < |now| ensures HoldsTask(h, i, now[i]) {
      assert HoldsTask(h, i, was[i]);
    }
  }

  /**
   Over every serial sequence of tasks, however each ends and wherever the log is trimmed: the
   log has one span per task, which opens with its prompt and whose last report is the last
   report of its own turns, or its stub when they have none.
   */
  lemma {:induction false} RunTasksHold(h: History, before: seq<Task>, tasks: seq<Task>)
    requires HoldsTasks(h, before)
    ensures HoldsTasks(RunTasks(h, tasks), before + tasks)
    decreases |tasks|
  {
    if tasks == [] {
      assert before + tasks == before;
    } else {
      RunTaskHoldsAny(h, tasks[0], before);
      RunTasksHold(RunTask(h, tasks[0]), before + [tasks[0]], tasks[1..]);
      assert before + tasks == before + [tasks[0]] + tasks[1..];
    }
  }

  lemma TrimShows(h: History, tasks: seq<Task>, i: nat)
    requires HoldsTasks(h, tasks) && i < |tasks| && !tasks[i].outcome.Stranded?
    ensures |EagerTrim(h).boundaries| == |tasks| && ShowsTask(EagerTrim(h), i, tasks[i])
  {
    assert HoldsTask(h, i, tasks[i]);
    assert TrimAssigns(h);
    TrimmedTaskReports(h, i, tasks[i]);
  }

  /** So a session's next run is seeded with each ended task's prompt and own report. */
  lemma {:induction false} SessionReports(tasks: seq<Task>, i: nat)
    requires i < |tasks| && !tasks[i].outcome.Stranded?
    ensures var h := EagerTrim(RunTasks(History([], []), tasks));
            |h.boundaries| == |tasks| && ShowsTask(h, i, tasks[i])
  {
    RunTasksHold(History([], []), [], tasks);
    assert [] + tasks == tasks;
    TrimShows(RunTasks(History([], []), tasks), tasks, i);
  }
}
