/** From a process back to the store: what a worker tells is what happened on it, and what a row says of a process is
    what the process did. */
module Processes {
  import opened Protocol
  import opened JobStore
  import opened CoordinatorCore
  import opened Policy
  import opened Cluster
  import opened Lifecycle
  import opened Leases
  import opened Requests
  import opened LateKills
  import opened Guarantees
  import opened RunVerdicts

  /** Something on connection `c` that the message tells: a spawn, a line of output, an exit of just this outcome, a
      rejection or a failed kill; or else the message was made up. */
  predicate Causes(step: WorkStep, message: WorkerMessage) {
    || step == Forge(message)
    || match message
       case Heartbeat(_, _) => false
       case Started(e) => step == Spawn(e.task, e.pid, e.timestamp)
       case Log(line) => step == Output(line.task, line)
       case Exited(e) => step == Exit(e.task, e.exitCode, e.success, e.timestamp)
       case Error(e) => e.task.Some? && (step == Reject(e.task.value, e.message) || step == KillFails(e.message))
  }

  /** One of the first `i` steps caused the message on connection `c`. */
  predicate Caused(steps: seq<Step>, i: nat, c: nat, message: WorkerMessage) {
    exists k :: 0 <= k < i && k < |steps| && steps[k].Work? && steps[k].at == c && Causes(steps[k].work, message)
  }

  predicate AllCaused(steps: seq<Step>, i: nat, c: nat, messages: seq<WorkerMessage>) {
    forall j :: 0 <= j < |messages| ==> Caused(steps, i, c, messages[j])
  }

  predicate TaskCaused(steps: seq<Step>, i: nat, c: nat, task: WorkerTask) {
    task.Live? ==> AllCaused(steps, i, c, task.events)
  }

  predicate ConnCaused(steps: seq<Step>, i: nat, c: nat, conn: Conn) {
    AllCaused(steps, i, c, conn.sent) && forall t :: t in conn.tasks ==> TaskCaused(steps, i, c, conn.tasks[t])
  }

  lemma CausedStill(steps: seq<Step>, i: nat, c: nat, messages: seq<WorkerMessage>)
    requires AllCaused(steps, i, c, messages)
    ensures AllCaused(steps, i + 1, c, messages)
  {
    hide Causes;
    forall j | 0 <= j < |messages| ensures Caused(steps, i + 1, c, messages[j]) {
      assert Caused(steps, i, c, messages[j]);
    }
  }

  lemma CausedNow(steps: seq<Step>, i: nat, c: nat, messages: seq<WorkerMessage>, message: WorkerMessage)
    requires AllCaused(steps, i, c, messages) && i < |steps|
    requires steps[i].Work? && steps[i].at == c && Causes(steps[i].work, message)
    ensures AllCaused(steps, i + 1, c, messages + [message])
  {
    CausedStill(steps, i, c, messages);
    assert Caused(steps, i + 1, c, message);
    hide Causes, Caused;
  }

  /** What a connection sent and its tasks told, after a step that leaves both alone. */
  lemma StillCaused(steps: seq<Step>, i: nat, c: nat, conn: Conn, conn': Conn)
    requires ConnCaused(steps, i, c, conn) && conn'.sent == conn.sent && conn'.tasks == conn.tasks
    ensures ConnCaused(steps, i + 1, c, conn')
  {
    CausedStill(steps, i, c, conn.sent);
    forall t | t in conn.tasks ensures TaskCaused(steps, i + 1, c, conn.tasks[t]) {
      assert TaskCaused(steps, i, c, conn.tasks[t]);
      if conn.tasks[t].Live? { CausedStill(steps, i, c, conn.tasks[t].events); }
    }
  }

  /** The same with one task written anew and some messages more. */
  lemma TaskWritten(
      steps: seq<Step>, i: nat, c: nat, conn: Conn, conn': Conn, t: TaskId, task: WorkerTask, out: seq<WorkerMessage>)
    requires ConnCaused(steps, i, c, conn)
    requires conn'.tasks == conn.tasks[t := task] && conn'.sent == conn.sent + out
    requires TaskCaused(steps, i + 1, c, task) && AllCaused(steps, i + 1, c, out)
    ensures ConnCaused(steps, i + 1, c, conn')
  {
    StillCaused(steps, i, c, conn, conn);
    hide Caused;
  }

  lemma ReceiveCaused(s: Sys, c: nat, s': Sys, steps: seq<Step>, i: nat)
    requires i < |steps| && steps[i].Work? && steps[i].at == c && NextWork(s, c, steps[i].work, s') && c in s.conns
    requires ConnCaused(steps, i, c, s.conns[c]) && steps[i].work.Receive?
    ensures c in s'.conns && ConnCaused(steps, i + 1, c, s'.conns[c])
  {
    hide ConnCaused, AllCaused;
    var spec := Mail(s, c).spec;
    NoneCaused(steps, i + 1, c);
    TaskWritten(steps, i, c, s.conns[c], s'.conns[c], spec.task, Received(spec), []);
  }

  lemma RejectCaused(s: Sys, c: nat, s': Sys, steps: seq<Step>, i: nat)
    requires i < |steps| && steps[i].Work? && steps[i].at == c && NextWork(s, c, steps[i].work, s') && c in s.conns
    requires ConnCaused(steps, i, c, s.conns[c]) && forall t :: t in s.conns[c].tasks ==> TaskAsked(s.conns[c], t)
    requires steps[i].work.Reject?
    ensures c in s'.conns && ConnCaused(steps, i + 1, c, s'.conns[c])
  {
    hide ConnCaused, AllCaused;
    var Reject(t, message) := steps[i].work;
    assert TaskAsked(s.conns[c], t);
    var spec := s.conns[c].tasks[t].spec;
    var report := Error(WorkerError(Some(spec.node), Some(spec.task), message));
    assert TaskCaused(steps, i + 1, c, Rejected);
    OneCaused(steps, i, c, report);
    TaskWritten(steps, i, c, s.conns[c], s'.conns[c], t, Rejected, [report]);
  }

  lemma SpawnCaused(s: Sys, c: nat, s': Sys, steps: seq<Step>, i: nat)
    requires i < |steps| && steps[i].Work? && steps[i].at == c && NextWork(s, c, steps[i].work, s') && c in s.conns
    requires ConnCaused(steps, i, c, s.conns[c]) && forall t :: t in s.conns[c].tasks ==> TaskAsked(s.conns[c], t)
    requires steps[i].work.Spawn?
    ensures c in s'.conns && ConnCaused(steps, i + 1, c, s'.conns[c])
  {
    hide ConnCaused, AllCaused, Authorize;
    var Spawn(t, pid, now) := steps[i].work;
    assert TaskAsked(s.conns[c], t);
    var spec := s.conns[c].tasks[t].spec;
    var start := Started(TaskStarted(spec.job, spec.task, spec.node, pid, now));
    OneCaused(steps, i, c, start);
    NoneCaused(steps, i + 1, c);
    TaskWritten(steps, i, c, s.conns[c], s'.conns[c], t, Live(spec, [start], 0, true), []);
  }

  lemma WorkCaused(s: Sys, c: nat, s': Sys, steps: seq<Step>, i: nat)
    requires i < |steps| && steps[i].Work? && steps[i].at == c && NextWork(s, c, steps[i].work, s') && c in s.conns
    requires ConnCaused(steps, i, c, s.conns[c]) && forall t :: t in s.conns[c].tasks ==> TaskAsked(s.conns[c], t)
    ensures c in s'.conns && ConnCaused(steps, i + 1, c, s'.conns[c])
  {
    hide ConnCaused, AllCaused, TaskCaused, Authorize;
    var conn, conn' := s.conns[c], s'.conns[c];
    match steps[i].work
    case Receive => ReceiveCaused(s, c, s', steps, i);
    case KillSucceeds => StillCaused(steps, i, c, conn, conn');
    case KillFails(message) => SentNow(s, c, s', steps, i, conn'.sent[|conn.sent|]);
    case Forge(forged) => SentNow(s, c, s', steps, i, forged);
    case Reject(t, message) => RejectCaused(s, c, s', steps, i);
    case Spawn(t, pid, now) => SpawnCaused(s, c, s', steps, i);
    case Output(t, line) => OutputCaused(s, c, s', steps, i);
    case Exit(t, exitCode, success, now) => ExitCaused(s, c, s', steps, i);
    case Forward(t) => ForwardCaused(s, c, s', steps, i);
  }

  lemma OutputCaused(s: Sys, c: nat, s': Sys, steps: seq<Step>, i: nat)
    requires i < |steps| && steps[i].Work? && steps[i].at == c && NextWork(s, c, steps[i].work, s') && c in s.conns
    requires ConnCaused(steps, i, c, s.conns[c]) && forall t :: t in s.conns[c].tasks ==> TaskAsked(s.conns[c], t)
    requires steps[i].work.Output?
    ensures c in s'.conns && ConnCaused(steps, i + 1, c, s'.conns[c])
  {
    hide ConnCaused, Authorize;
    var Output(t, line) := steps[i].work;
    assert TaskAsked(s.conns[c], t);
    MoreOf(s, c, s', steps, i, t, Log(line));
  }

  lemma ExitCaused(s: Sys, c: nat, s': Sys, steps: seq<Step>, i: nat)
    requires i < |steps| && steps[i].Work? && steps[i].at == c && NextWork(s, c, steps[i].work, s') && c in s.conns
    requires ConnCaused(steps, i, c, s.conns[c]) && forall t :: t in s.conns[c].tasks ==> TaskAsked(s.conns[c], t)
    requires steps[i].work.Exit?
    ensures c in s'.conns && ConnCaused(steps, i + 1, c, s'.conns[c])
  {
    hide ConnCaused, Authorize;
    var Exit(t, exitCode, success, now) := steps[i].work;
    assert TaskAsked(s.conns[c], t);
    var spec := s.conns[c].tasks[t].spec;
    MoreOf(s, c, s', steps, i, t, Exited(TaskExited(spec.job, spec.task, spec.node, exitCode, success, now)));
  }

  lemma ForwardCaused(s: Sys, c: nat, s': Sys, steps: seq<Step>, i: nat)
    requires i < |steps| && steps[i].Work? && steps[i].at == c && NextWork(s, c, steps[i].work, s') && c in s.conns
    requires ConnCaused(steps, i, c, s.conns[c]) && steps[i].work.Forward?
    ensures c in s'.conns && ConnCaused(steps, i + 1, c, s'.conns[c])
  {
    hide Caused;
    var t := steps[i].work.task;
    var task := s.conns[c].tasks[t];
    assert TaskCaused(steps, i, c, task);
    CausedStill(steps, i, c, task.events);
    var told, moved := task.events[task.forwarded], task.(forwarded := task.forwarded + 1);
    assert AllCaused(steps, i + 1, c, [told]);
    assert TaskCaused(steps, i + 1, c, moved);
    hide ConnCaused, AllCaused, TaskCaused;
    TaskWritten(steps, i, c, s.conns[c], s'.conns[c], t, moved, [told]);
  }

  lemma NoneCaused(steps: seq<Step>, i: nat, c: nat)
    ensures AllCaused(steps, i, c, [])
  {
  }

  lemma OneCaused(steps: seq<Step>, i: nat, c: nat, message: WorkerMessage)
    requires i < |steps| && steps[i].Work? && steps[i].at == c && Causes(steps[i].work, message)
    ensures AllCaused(steps, i + 1, c, [message])
  {
    NoneCaused(steps, i, c);
    CausedNow(steps, i, c, [], message);
    assert [] + [message] == [message];
  }

  /** A message that is sent right away. */
  lemma SentNow(s: Sys, c: nat, s': Sys, steps: seq<Step>, i: nat, message: WorkerMessage)
    requires i < |steps| && steps[i].Work? && steps[i].at == c && Causes(steps[i].work, message)
    requires c in s.conns && c in s'.conns && ConnCaused(steps, i, c, s.conns[c])
    requires s'.conns[c].tasks == s.conns[c].tasks && s'.conns[c].sent == s.conns[c].sent + [message]
    ensures ConnCaused(steps, i + 1, c, s'.conns[c])
  {
    StillCaused(steps, i, c, s.conns[c], s.conns[c]);
    CausedNow(steps, i, c, s.conns[c].sent, message);
    hide Caused;
  }

  /** A message that a live task's channel gets. */
  lemma MoreOf(s: Sys, c: nat, s': Sys, steps: seq<Step>, i: nat, t: TaskId, message: WorkerMessage)
    requires i < |steps| && steps[i].Work? && steps[i].at == c && Causes(steps[i].work, message)
    requires IsLive(s, c, t) && c in s'.conns && ConnCaused(steps, i, c, s.conns[c])
    requires t in s'.conns[c].tasks && s'.conns[c].tasks[t].Live?
    requires s'.conns[c].tasks == s.conns[c].tasks[t := s'.conns[c].tasks[t]]
    requires s'.conns[c].tasks[t].events == s.conns[c].tasks[t].events + [message]
    requires s'.conns[c].sent == s.conns[c].sent
    ensures ConnCaused(steps, i + 1, c, s'.conns[c])
  {
    assert TaskCaused(steps, i, c, s.conns[c].tasks[t]);
    CausedNow(steps, i, c, s.conns[c].tasks[t].events, message);
    NoneCaused(steps, i + 1, c);
    hide Caused, Causes;
    assert s'.conns[c].sent == s.conns[c].sent + [];
    TaskWritten(steps, i, c, s.conns[c], s'.conns[c], t, s'.conns[c].tasks[t], []);
  }

  lemma WireSays(s: Sys, step: WireStep, s': Sys, c: nat)
    requires NextWire(s, step, s') && c in s'.conns
    ensures if c in s.conns then s'.conns[c].sent == s.conns[c].sent && s'.conns[c].tasks == s.conns[c].tasks
            else s'.conns[c].sent == [] && s'.conns[c].tasks == map[]
  {
    hide Read, Advance;
  }

  lemma StepCaused(s: Sys, s': Sys, steps: seq<Step>, i: nat, c: nat)
    requires i < |steps| && Next(s, steps[i], s') && AllAsked(s) && c in s'.conns
    requires c in s.conns ==> ConnCaused(steps, i, c, s.conns[c])
    ensures ConnCaused(steps, i + 1, c, s'.conns[c])
  {
    hide NextWire, NextWork, NextClient, ConnCaused, ToBeSent, TaskAsked;
    match steps[i]
    case Wire(wire) =>
      WireSays(s, wire, s', c);
      if c in s.conns {
        StillCaused(steps, i, c, s.conns[c], s'.conns[c]);
      } else {
        NothingSaid(steps, i + 1, c, s'.conns[c]);
      }
    case Work(d, work) =>
      WorkOthers(s, d, work, s', c);
      if d == c {
        assert WorkerAsked(s.runs, c, s.conns[c]);
        WorkCaused(s, c, s', steps, i);
      } else {
        StillCaused(steps, i, c, s.conns[c], s'.conns[c]);
      }
    case Client(call) =>
      ClientMail(s, call, s', c);
      StillCaused(steps, i, c, s.conns[c], s'.conns[c]);
    case Dispatch(_, _, _, _, _, _, _) =>
      hide DispatchesTo, SelectNodes;
      DispatchStep(s, steps[i], s');
      StillCaused(steps, i, c, s.conns[c], s'.conns[c]);
  }

  lemma NothingSaid(steps: seq<Step>, i: nat, c: nat, conn: Conn)
    requires conn.sent == [] && conn.tasks == map[]
    ensures ConnCaused(steps, i, c, conn)
  {
  }

  /** In every run of the system, everything a worker has sent was caused by a step of that worker: a start by a spawn,
      a line by output, an exit by an exit of that very outcome, an error by a rejection or a failed kill, unless it
      was made up as it stands. */
  lemma {:induction false} SentWasCaused(states: seq<Sys>, steps: seq<Step>, i: nat, c: nat)
    requires Execution(states, steps) && i <= |steps|
    ensures |states| == |steps| + 1
    ensures c in states[i].conns ==> ConnCaused(steps, i, c, states[i].conns[c])
  {
    if i > 0 {
      SentWasCaused(states, steps, i - 1, c);
      RunStep(states, steps, i - 1);
      AskedHolds(states, steps, i - 1);
      hide Execution, Next, AllAsked, ConnCaused;
      if c in states[i].conns { StepCaused(states[i - 1], states[i], steps, i - 1, c); }
    }
  }

  // ---- What a row says of a process ----

  lemma {:induction false} StatusHasMessage(heard: seq<WorkerMessage>, t: TaskId) returns (j: nat)
    ensures StatusAfter(heard, t).Queued? || j < |heard|
    ensures match StatusAfter(heard, t)
      case Queued => true
      case Running => heard[j].Started? && heard[j].started.task == t
      case Succeeded => heard[j].Exited? && heard[j].exited.task == t && heard[j].exited.success
      case Failed =>
        || (heard[j].Exited? && heard[j].exited.task == t && !heard[j].exited.success)
        || (heard[j].Error? && heard[j].error.task == Some(t))
  {
    j := 0;
    if heard != [] {
      var last := |heard| - 1;
      hide Marks, Tally;
      j := StatusHasMessage(heard[..last], t);
      var mark := MarkOf(heard[last], t);
      if mark == [Begun] || mark == [Ended] || (mark == [Failure] && StatusAfter(heard, t).Failed?) {
        j := last;
      } else {
        assert StatusAfter(heard, t) == StatusAfter(heard[..last], t);
      }
    }
  }

  lemma HonestNames(placed: Placed, c: nat, heard: seq<WorkerMessage>, t: TaskId)
    requires SentOk(placed, c, heard) && t in placed
    ensures From(heard, t, placed[t].node)
  {
    forall j | 0 <= j < |heard| ensures LateKills.Names(heard[j], t, placed[t].node) {
      assert MessageOk(placed, c, heard[j]);
    }
  }

  /** Step `k` happened to task `t` at its worker. */
  predicate Happened(steps: seq<Step>, k: nat, i: nat, c: nat, work: WorkStep) {
    k < i && k < |steps| && steps[k] == Work(c, work)
  }

  lemma HonestIsNotForged(states: seq<Sys>, steps: seq<Step>, k: nat, i: nat)
    requires HonestRun(states, steps) && k < i <= |steps| && steps[k].Work?
    ensures !steps[k].work.Forge?
  {
    assert Honest(states[k], steps[k]);
  }

  ghost predicate Tells(steps: seq<Step>, i: nat, c: nat, t: TaskId, status: Status) {
    match status
    case Queued => true
    case Running => exists k: nat, pid, now :: Happened(steps, k, i, c, Spawn(t, pid, now))
    case Succeeded => exists k: nat, code, now :: Happened(steps, k, i, c, Exit(t, code, true, now))
    case Failed =>
      || (exists k: nat, code, now :: Happened(steps, k, i, c, Exit(t, code, false, now)))
      || (exists k: nat, message :: Happened(steps, k, i, c, Reject(t, message)))
      || (exists k: nat, message :: Happened(steps, k, i, c, KillFails(message)))
  }

  /** What the worker did when it sent message `j`. */
  lemma DoneFor(states: seq<Sys>, steps: seq<Step>, i: nat, c: nat, j: nat) returns (k: nat)
    requires HonestRun(states, steps) && i <= |steps| && |states| == |steps| + 1
    requires c in states[i].conns && j < |states[i].conns[c].sent|
    ensures k < i && steps[k].Work? && Happened(steps, k, i, c, steps[k].work)
    ensures Causes(steps[k].work, states[i].conns[c].sent[j]) && !steps[k].work.Forge?
  {
    SentWasCaused(states, steps, i, c);
    hide HonestRun, Causes;
    assert Caused(steps, i, c, states[i].conns[c].sent[j]);
    k :| 0 <= k < i && k < |steps| && steps[k].Work? && steps[k].at == c
      && Causes(steps[k].work, states[i].conns[c].sent[j]);
    HonestIsNotForged(states, steps, k, i);
  }

  /** What was read on an open connection decides, and is about the task's own node. */
  lemma RowIsHeard(states: seq<Sys>, steps: seq<Step>, i: nat, t: TaskId)
    requires HonestRun(states, steps) && i <= |steps| && |states| == |steps| + 1 && t in states[i].placed
    ensures var s, c := states[i], states[i].placed[t].conn;
      && c in s.conns && t in s.core.rows && s.conns[c].read <= |s.conns[c].sent|
      && (s.conns[c].open && s.conns[c].cont.Idle? ==>
            s.core.rows[t].status == StatusAfter(s.conns[c].sent[..s.conns[c].read], t))
  {
    HonestRunEchoes(states, steps);
    LifeHolds(states, steps, i);
    hide HonestRun, EchoingRun, Life, StatusAfter, Tally, Marks, Exits, From;
    HeardDecides(states, steps, i, t);
    var s, p := states[i], states[i].placed[t];
    var heard := s.conns[p.conn].sent[..s.conns[p.conn].read];
    assert SentOk(s.placed, p.conn, heard) by { SentPrefixOk(s, p.conn); }
    hide SentOk;
    HonestNames(s.placed, p.conn, heard, t);
  }

  lemma SentPrefixOk(s: Sys, c: nat)
    requires Life(s) && c in s.conns && s.conns[c].read <= |s.conns[c].sent|
    ensures SentOk(s.placed, c, s.conns[c].sent[..s.conns[c].read])
  {
    AboutConn(s, c);
    hide Life, ContOk, InboxOk, TasksOk, MessageOk;
  }

  /** In every honest run, while its connection is open and no handler of it is under way: the row of a task is
      succeeded only if its process exited with success, running only if it was spawned, and failed only if it exited
      without success, was rejected, or a kill failed. */
  lemma RowTellsProcess(states: seq<Sys>, steps: seq<Step>, i: nat, t: TaskId)
    requires HonestRun(states, steps) && i <= |steps| && |states| == |steps| + 1 && t in states[i].placed
    ensures var s, c := states[i], states[i].placed[t].conn;
      && c in s.conns && t in s.core.rows
      && (s.conns[c].open && s.conns[c].cont.Idle? ==> Tells(steps, i, c, t, s.core.rows[t].status))
  {
    RowIsHeard(states, steps, i, t);
    hide HonestRun, StatusAfter;
    var c := states[i].placed[t].conn;
    var conn := states[i].conns[c];
    if conn.open && conn.cont.Idle? {
      var heard := conn.sent[..conn.read];
      var status := StatusAfter(heard, t);
      var j := StatusHasMessage(heard, t);
      if !status.Queued? {
        assert conn.sent[j] == heard[j];
        var k := DoneFor(states, steps, i, c, j);
        hide Happened;
        assert Tells(steps, i, c, t, status);
      }
    }
  }
}
