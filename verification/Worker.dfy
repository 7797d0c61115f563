/** The worker's handling of one StartTask and of kills, and the table of processes its executor keeps. */
module Worker {
  import opened Protocol
  import opened Policy
  import opened Lifecycle
  import opened Text
  import opened JobStore
  import opened Diagnosis

  // ---- The process table ----

  datatype Call = Began(task: TaskId, pid: Option<nat>) | Over(task: TaskId)

  function ApplyCall(processes: map<TaskId, nat>, call: Call): map<TaskId, nat> {
    match call
    case Began(task, pid) => if pid.Some? then processes[task := pid.value] else processes
    case Over(task) => processes - {task}
  }

  function ReplayCalls(calls: seq<Call>): map<TaskId, nat> {
    if calls == [] then map[] else ApplyCall(ReplayCalls(calls[..|calls| - 1]), calls[|calls| - 1])
  }

  /** Call `i` gave `task` the process id `pid`, and no later call took it away or gave another. */
  predicate LastGave(calls: seq<Call>, i: nat, task: TaskId, pid: nat) {
    && i < |calls| && calls[i] == Began(task, Some(pid))
    && forall j :: i < j < |calls| ==> calls[j].task != task || calls[j] == Began(task, None)
  }

  /** The table knows exactly the tasks that began with a process id and have not ended since. */
  lemma {:induction false} TableIsLastGiven(calls: seq<Call>, task: TaskId, pid: nat)
    ensures task in ReplayCalls(calls) && ReplayCalls(calls)[task] == pid <==> exists i: nat ::
      LastGave(calls, i, task, pid)
  {
    if calls != [] {
      var last := |calls| - 1;
      var before := calls[..last];
      TableIsLastGiven(before, task, pid);
      if calls[last] == Began(task, Some(pid)) {
        assert LastGave(calls, last, task, pid);
      }
      if i: nat :| LastGave(before, i, task, pid) {
        assert calls[last].task != task || calls[last] == Began(task, None) ==> LastGave(calls, i, task, pid);
      }
      if i: nat :| LastGave(calls, i, task, pid) {
        if i < last { assert LastGave(before, i, task, pid); }
      }
    }
  }

  // ---- What the executor's tasks put into the channel of a task ----

  function TimeoutNotice(seconds: nat): string {
    "task timed out after " + Decimal(seconds) + "s; terminating process group"
  }

  /** A timeout of zero seconds is none. */
  predicate CanTimeOut(spec: RunSpec) {
    spec.timeout.Some? && spec.timeout.value > 0
  }

  predicate IsStart(spec: RunSpec, message: WorkerMessage) {
    message.Started? && message.started.task == spec.task && message.started.job == spec.job
    && message.started.node == spec.node
  }

  predicate IsLine(spec: RunSpec, message: WorkerMessage) {
    message.Log? && message.log.task == spec.task && message.log.job == spec.job && message.log.node == spec.node
  }

  /** One of the two log readers. */
  predicate FromReader(spec: RunSpec, lines: seq<WorkerMessage>) {
    forall i :: 0 <= i < |lines| ==> IsLine(spec, lines[i])
  }

  /** The wait task: perhaps a line about a timeout, then one exit. */
  predicate FromWaiter(spec: RunSpec, out: seq<WorkerMessage>) {
    && 1 <= |out| <= 2 && (|out| == 2 ==> IsLine(spec, out[0]))
    && var last := out[|out| - 1];
       last.Exited? && last.exited.task == spec.task && last.exited.job == spec.job && last.exited.node == spec.node
  }

  /** `out` takes its elements from `a` and `b`, each in its own order: what two senders make of one channel. */
  predicate Interleaves<T(==)>(out: seq<T>, a: seq<T>, b: seq<T>)
    decreases |out|
  {
    if out == [] then a == [] && b == []
    else
      || (a != [] && out[0] == a[0] && Interleaves(out[1..], a[1..], b))
      || (b != [] && out[0] == b[0] && Interleaves(out[1..], a, b[1..]))
  }

  class LocalExecutor {
    var processes: map<TaskId, nat>

    constructor ()
      ensures processes == ReplayCalls([])
    {
      processes := map[];
    }

    /** The part of `start` that follows a successful spawn. */
    method Start(spec: RunSpec, pid: Option<nat>, now: Protocol.Time) returns (started: WorkerMessage)
      modifies this
      ensures processes == ApplyCall(old(processes), Began(spec.task, pid))
      ensures started == Started(TaskStarted(spec.job, spec.task, spec.node, pid, now)) && IsStart(spec, started)
    {
      if pid.Some? {
        processes := processes[spec.task := pid.value];
      }
      started := Started(TaskStarted(spec.job, spec.task, spec.node, pid, now));
    }

    /** The wait task: a line about a timeout if it comes first, then, once the process is gone, the exit. */
    method Finish(spec: RunSpec, sleptOut: bool, exitCode: Option<int>, success: bool, now: Protocol.Time)
      returns (out: seq<WorkerMessage>)
      modifies this
      ensures processes == ApplyCall(old(processes), Over(spec.task))
      ensures FromWaiter(spec, out)
      ensures !(sleptOut && CanTimeOut(spec)) ==>
                out == [Exited(TaskExited(spec.job, spec.task, spec.node, exitCode, success, now))]
      ensures sleptOut && CanTimeOut(spec) ==>
                out == [Log(LogLine(spec.job, spec.task, spec.node, System, now, TimeoutNotice(spec.timeout.value), 0)),
                        Exited(TaskExited(spec.job, spec.task, spec.node, None, false, now))]
    {
      if sleptOut && CanTimeOut(spec) {
        out := [Log(LogLine(spec.job, spec.task, spec.node, System, now, TimeoutNotice(spec.timeout.value), 0))];
        processes := processes - {spec.task};
        out := out + [Exited(TaskExited(spec.job, spec.task, spec.node, None, false, now))];
      } else {
        processes := processes - {spec.task};
        out := [Exited(TaskExited(spec.job, spec.task, spec.node, exitCode, success, now))];
      }
    }

    /** A KillTask: silent when the process group of a known process was signalled, else one error for the task. */
    method KillTask(node: NodeId, task: TaskId, delivered: bool, message: string) returns (report: seq<WorkerMessage>)
      ensures report == [] <==> task in processes && delivered
      ensures report != [] ==>
                && |report| == 1 && Marks(report, task) == [Failure]
                && report[0] == Error(WorkerError(Some(node), Some(task), message))
    {
      if task in processes && delivered {
        return [];
      }
      report := [Error(WorkerError(Some(node), Some(task), message))];
      MarksOfMore([], report[0], task);
      assert [] + [report[0]] == report;
    }
  }

  /** The worker's line about a timeout is what the diagnosis looks for, and it is not taken for a network problem. */
  lemma TimeoutIsDiagnosed(
      logs: seq<LogLine>, k: nat, seconds: nat, tasks: seq<TaskSummary>, hints: seq<Hint>)
    requires k < |logs| && logs[k].line == TimeoutNotice(seconds) && HintsUpTo(logs, tasks, hints, 11)
    ensures RuntimeTimeout in hints && Network !in hints
  {
    hide Decimal, ContainsInAnyCase, Mentions, TimeoutNotice;
    NoticeHoldsWords(seconds);
    MentionsIff(logs, "task timed out after");
    assert TextHint(logs, RuntimeTimeout) && !TextHint(logs, Network);
  }

  lemma NoticeHoldsWords(seconds: nat)
    ensures ContainsInAnyCase(TimeoutNotice(seconds), "task timed out after")
  {
    hide Decimal;
    var words, rest := "task timed out after", " " + Decimal(seconds) + "s; terminating process group";
    assert TimeoutNotice(seconds) == words + rest;
    BeginsWith(words, rest);
  }

  lemma BeginsWith(words: string, rest: string)
    ensures ContainsInAnyCase(words + rest, words)
  {
    assert OccursInAnyCase(words + rest, words, 0);
  }

  // ---- One StartTask ----

  /** What a task's channel holds when the executor has closed it: the start, sent before the readers and the wait task
      are spawned, then whatever those three send, in any interleaving. */
  ghost predicate FromExecutor(spec: RunSpec, events: seq<WorkerMessage>) {
    && events != [] && IsStart(spec, events[0])
    && exists stdout, stderr, lines, waiter ::
         && FromReader(spec, stdout) && FromReader(spec, stderr) && FromWaiter(spec, waiter)
         && Interleaves(lines, stdout, stderr) && Interleaves(events[1..], lines, waiter)
  }

  lemma {:induction false} InterleavedLines(
      spec: RunSpec, lines: seq<WorkerMessage>, a: seq<WorkerMessage>, b: seq<WorkerMessage>)
    requires Interleaves(lines, a, b) && FromReader(spec, a) && FromReader(spec, b)
    ensures FromReader(spec, lines)
    decreases |lines|
  {
    if lines != [] {
      if a != [] && lines[0] == a[0] && Interleaves(lines[1..], a[1..], b) {
        InterleavedLines(spec, lines[1..], a[1..], b);
      } else {
        InterleavedLines(spec, lines[1..], a, b[1..]);
      }
      assert forall i :: 1 <= i < |lines| ==> lines[i] == lines[1..][i - 1];
    }
  }

  lemma NoMarksYet(t: TaskId)
    ensures Marks([], t) == []
  {
  }

  lemma {:induction false} MarksFromFirst(first: WorkerMessage, rest: seq<WorkerMessage>, t: TaskId)
    ensures Marks([first] + rest, t) == MarkOf(first, t) + Marks(rest, t)
  {
    hide Marks, MarkOf;
    NoMarksYet(t);
    if rest == [] {
      MarksOfMore([], first, t);
      assert [] + [first] == [first] + rest;
    } else {
      var last := |rest| - 1;
      MarksFromFirst(first, rest[..last], t);
      MarksOfMore(rest[..last], rest[last], t);
      MarksOfMore([first] + rest[..last], rest[last], t);
      assert rest[..last] + [rest[last]] == rest;
      assert [first] + rest[..last] + [rest[last]] == [first] + rest;
      assert MarkOf(first, t) + Marks(rest[..last], t) + MarkOf(rest[last], t)
          == MarkOf(first, t) + (Marks(rest[..last], t) + MarkOf(rest[last], t));
    }
  }

  lemma AboutMore(first: WorkerMessage, rest: seq<WorkerMessage>, t: TaskId)
    requires Concerns(first, t) && AllAbout(rest, t)
    ensures AllAbout([first] + rest, t)
  {
  }

  lemma LineMarks(spec: RunSpec, line: WorkerMessage)
    requires IsLine(spec, line)
    ensures MarkOf(line, spec.task) == [] && Concerns(line, spec.task)
  {
  }

  /** What the wait task sends next, and what it has left. */
  lemma WaiterSplit(spec: RunSpec, waiter: seq<WorkerMessage>)
    requires FromWaiter(spec, waiter)
    ensures Concerns(waiter[0], spec.task)
    ensures if |waiter| == 1 then MarkOf(waiter[0], spec.task) == [Ended] && waiter[1..] == []
            else MarkOf(waiter[0], spec.task) == [] && FromWaiter(spec, waiter[1..])
  {
  }

  /** Once the exit is out, only lines are left; before that, lines and the exit. */
  lemma {:induction false} OneExitInside(
      spec: RunSpec, out: seq<WorkerMessage>, lines: seq<WorkerMessage>, waiter: seq<WorkerMessage>)
    requires Interleaves(out, lines, waiter) && FromReader(spec, lines)
    requires waiter == [] || FromWaiter(spec, waiter)
    ensures AllAbout(out, spec.task)
    ensures Marks(out, spec.task) == if waiter == [] then [] else [Ended]
    decreases |out|
  {
    if out != [] {
      hide Marks, MarkOf, Concerns, AllAbout, FromWaiter, IsLine;
      var first, rest := out[0], out[1..];
      MarksFromFirst(first, rest, spec.task);
      if lines != [] && first == lines[0] && Interleaves(rest, lines[1..], waiter) {
        LineMarks(spec, first);
        OneExitInside(spec, rest, lines[1..], waiter);
      } else {
        WaiterSplit(spec, waiter);
        OneExitInside(spec, rest, lines, waiter[1..]);
      }
      AboutMore(first, rest, spec.task);
      assert out == [first] + rest;
    }
  }

  /** The order of a task's events follows from who sends them: the start first, then lines and exactly one exit. */
  lemma ExecutorOrder(spec: RunSpec, events: seq<WorkerMessage>)
    requires FromExecutor(spec, events)
    ensures events != [] && MarkOf(events[0], spec.task) == [Begun]
    ensures AllAbout(events, spec.task) && Marks(events, spec.task) == [Begun, Ended]
  {
    var stdout, stderr, lines, waiter :|
      && FromReader(spec, stdout) && FromReader(spec, stderr) && FromWaiter(spec, waiter)
      && Interleaves(lines, stdout, stderr) && Interleaves(events[1..], lines, waiter);
    InterleavedLines(spec, lines, stdout, stderr);
    OneExitInside(spec, events[1..], lines, waiter);
    hide Marks, Interleaves, FromReader, FromWaiter;
    AboutFromFirst(events, spec.task);
    hide AllAbout;
    MarksFromFirst(events[0], events[1..], spec.task);
  }

  lemma AboutFromFirst(events: seq<WorkerMessage>, t: TaskId)
    requires events != [] && Concerns(events[0], t) && AllAbout(events[1..], t)
    ensures AllAbout(events, t) && events == [events[0]] + events[1..]
  {
    hide Concerns;
    assert forall i :: 1 <= i < |events| ==> events[i] == events[1..][i - 1];
  }

  lemma {:induction false} StartIsFirst(events: seq<WorkerMessage>, t: TaskId, k: nat)
    requires events != [] && MarkOf(events[0], t) == [Begun] && 1 <= k <= |events|
    ensures Marks(events[..k], t) != [] && Marks(events[..k], t)[0] == Begun
  {
    if k == 1 {
      assert events[..1] == [] + [events[0]];
      MarksOfMore([], events[0], t);
    } else {
      StartIsFirst(events, t, k - 1);
      MarksOfNext(events, k - 1, t);
    }
  }

  lemma ErrorVerdict(t: TaskId, report: WorkerMessage)
    requires report.Error? && report.error.task == Some(t)
    ensures Complete(Marks([report], t)) && LogsAfterStart([report], t) && Begun !in Marks([report], t)
  {
    MarksOfMore([], report, t);
    assert [] + [report] == [report];
  }

  lemma RunVerdict(spec: RunSpec, events: seq<WorkerMessage>)
    requires FromExecutor(spec, events)
    ensures Complete(Marks(events, spec.task)) && LogsAfterStart(events, spec.task) && Begun in Marks(events, spec.task)
  {
    ExecutorOrder(spec, events);
    forall i | 0 <= i < |events| && events[i].Log? && events[i].log.task == spec.task
      ensures Marks(events[..i], spec.task) != [] && Marks(events[..i], spec.task)[0] == Begun
    {
      StartIsFirst(events, spec.task, i);
    }
  }

  /** `start_task` with the error its caller reports: `failure` is what went wrong in preparing or spawning. The worker
      says exactly one thing about the task: one error, or its start before every log line and one exit; a start only
      of what the policy allows. */
  method StartTask(
      spec: RunSpec, policy: PolicyConfig, reason: string, failure: Option<string>, events: seq<WorkerMessage>)
    returns (sent: seq<WorkerMessage>)
    requires failure.None? ==> FromExecutor(spec, events)
    ensures Complete(Marks(sent, spec.task)) && LogsAfterStart(sent, spec.task)
    ensures Begun in Marks(sent, spec.task) <==> Authorize(policy, spec.argv).Allow? && failure.None?
    ensures Begun in Marks(sent, spec.task) ==> sent == events
    ensures Begun !in Marks(sent, spec.task) ==>
              && |sent| == 1 && sent[0].Error?
              && sent[0].error.node == Some(spec.node) && sent[0].error.task == Some(spec.task)
              && sent[0].error.message == if Authorize(policy, spec.argv).Allow? then failure.value else reason
  {
    hide Marks, Complete, LogsAfterStart, Authorize;
    sent := [];
    var decision := Authorize(policy, spec.argv);
    if decision.Ask? || decision.Deny? {
      sent := [Error(WorkerError(Some(spec.node), Some(spec.task), reason))];
      ErrorVerdict(spec.task, sent[0]);
      return;
    }
    if failure.Some? {
      sent := [Error(WorkerError(Some(spec.node), Some(spec.task), failure.value))];
      ErrorVerdict(spec.task, sent[0]);
      return;
    }
    for k := 0 to |events|
      invariant sent == events[..k]
    {
      sent := sent + [events[k]];
    }
    assert sent == events;
    RunVerdict(spec, events);
  }
}
