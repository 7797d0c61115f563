/** Steps at the worker end of a connection keep the lifecycle invariant. */
module WorkerSteps {
  import opened Protocol
  import opened Policy
  import opened Cluster
  import opened Lifecycle

  /** `conn` with other messages sent, other mail taken and other tasks, but the same coordinator side. */
  predicate SameSide(conn: Conn, conn': Conn) {
    && conn'.node == conn.node && conn'.policy == conn.policy && conn'.cont == conn.cont
    && conn'.open == conn.open && conn'.read == conn.read && conn'.inbox == conn.inbox
    && conn.sent <= conn'.sent
  }

  /** What a worker step has to show about its own connection. */
  ghost predicate EndOk(s: Sys, c: nat, conn': Conn) {
    && conn'.got <= |conn'.inbox|
    && SentOk(s.placed, c, conn'.sent)
    && TasksOk(s.placed, c, conn'.tasks)
    && (forall t :: t in s.placed && s.placed[t].conn == c ==> EndTask(s, conn', t))
  }

  ghost predicate EndTask(s: Sys, conn': Conn, t: TaskId) {
    t in s.placed && Delivered(conn', t, Posted(s.runs, s.placed[t])) && Shape(conn', t)
  }

  lemma EndKeepsTask(s: Sys, c: nat, conn': Conn, t: TaskId)
    requires TaskOk(s, t) && c in s.conns && SameSide(s.conns[c], conn')
    requires s.conns[c].read <= |s.conns[c].sent|
    requires s.placed[t].conn == c ==> EndTask(s, conn', t)
    ensures TaskOk(WithConn(s, c, conn'), t)
  {
    if s.placed[t].conn == c {
      assert conn'.sent[..conn'.read] == s.conns[c].sent[..conn'.read];
    }
  }

  lemma EndKeepsNodes(s: Sys, c: nat, conn': Conn)
    requires NodesOk(s) && c in s.conns && SameSide(s.conns[c], conn')
    ensures NodesOk(WithConn(s, c, conn'))
  {
    forall n | n in s.core.nodes ensures NodeOk(s.placed, s.conns[c := conn'], n, s.core.nodes[n]) {
      assert NodeOk(s.placed, s.conns, n, s.core.nodes[n]);
    }
  }

  lemma EndKeepsLife(s: Sys, c: nat, conn': Conn)
    requires Life(s) && c in s.conns && SameSide(s.conns[c], conn') && EndOk(s, c, conn')
    ensures Life(WithConn(s, c, conn'))
  {
    hide TaskOk, RunOk, KillOk, NodeOk, EndTask, SentOk, InboxOk, TasksOk;
    var s' := WithConn(s, c, conn');
    assert ConnOk(s.placed, s.core, c, s.conns[c]);
    assert ConnOk(s.placed, s.core, c, conn');
    assert ConnsOk(s');
    forall t | t in s'.placed ensures TaskOk(s', t) {
      assert TaskOk(s, t);
      EndKeepsTask(s, c, conn', t);
    }
    EndKeepsNodes(s, c, conn');
  }

  /** Adding one message leaves a task's shape alone when the message does not mark it, and adds to it when it does. */
  lemma SentMore(conn: Conn, conn': Conn, message: WorkerMessage, t: TaskId)
    requires conn'.sent == conn.sent + [message] && LogsAfterStart(conn.sent, t)
    requires message.Log? && message.log.task == t ==> Marks(conn.sent, t) != [] && Marks(conn.sent, t)[0] == Begun
    ensures Marks(conn'.sent, t) == Marks(conn.sent, t) + MarkOf(message, t)
    ensures LogsAfterStart(conn'.sent, t)
  {
    MarksOfMore(conn.sent, message, t);
    forall i | 0 <= i < |conn'.sent| && conn'.sent[i].Log? && conn'.sent[i].log.task == t
      ensures Marks(conn'.sent[..i], t) != [] && Marks(conn'.sent[..i], t)[0] == Begun
    {
      assert conn'.sent[..i] == conn.sent[..i];
      if i == |conn.sent| { assert conn.sent[..i] == conn.sent; }
    }
  }

  // ---- Taking mail ----

  lemma MailTaken(conn: Conn, conn': Conn, t: TaskId, posted: bool)
    requires conn.got < |conn.inbox| && Delivered(conn, t, posted)
    requires conn'.inbox == conn.inbox && conn'.got == conn.got + 1
    requires var mail := conn.inbox[conn.got];
      t in conn'.tasks <==> t in conn.tasks || (mail.StartTask? && mail.spec.task == t)
    ensures Delivered(conn', t, posted)
    ensures conn.inbox[conn.got].StartTask? && conn.inbox[conn.got].spec.task == t ==> t !in conn.tasks
  {
    StartsOfNext(conn.inbox, conn.got, t);
    StartsOfPrefix(conn.inbox, conn.got + 1, t);
  }

  lemma ReceiveKeeps(s: Sys, c: nat)
    requires Life(s) && HasMail(s, c) && Mail(s, c).StartTask?
    ensures Life(DoReceive(s, c))
  {
    hide Life;
    var conn := s.conns[c];
    var spec := Mail(s, c).spec;
    var conn' := conn.(got := conn.got + 1, tasks := conn.tasks[spec.task := Received(spec)]);
    AboutConn(s, c);
    assert MailOk(s.placed, c, conn.inbox[conn.got]);
    assert TasksOk(s.placed, c, conn'.tasks) by { hide Delivered, Shape; }
    forall t | t in s.placed && s.placed[t].conn == c ensures EndTask(s, conn', t) {
      AboutTask(s, t);
      MailTaken(conn, conn', t, Posted(s.runs, s.placed[t]));
    }
    EndKeepsLife(s, c, conn');
  }

  lemma KillSucceedsKeeps(s: Sys, c: nat)
    requires Life(s) && HasMail(s, c) && Mail(s, c).KillTask?
    ensures Life(DoKillSucceeds(s, c))
  {
    hide Life;
    var conn := s.conns[c];
    var conn' := conn.(got := conn.got + 1);
    AboutConn(s, c);
    forall t | t in s.placed && s.placed[t].conn == c ensures EndTask(s, conn', t) {
      AboutTask(s, t);
      MailTaken(conn, conn', t, Posted(s.runs, s.placed[t]));
    }
    EndKeepsLife(s, c, conn');
  }

  lemma LateMark(v: seq<Mark>)
    requires Complete(v)
    ensures Complete(v + [Failure]) && v != [] && (v + [Failure])[0] == v[0]
  {
  }

  lemma LateLive(task: WorkerTask, v: seq<Mark>, t: TaskId)
    requires task.Live? && LiveOk(task, v, t) && Complete(v)
    ensures LiveOk(task, v + [Failure], t)
  {
    MarksOfPrefix(task.events, task.forwarded, t);
    hide Marks;
    LateMark(v);
  }

  /** A report about a task that has its verdict, or about another task. */
  lemma LateReport(conn: Conn, conn': Conn, report: WorkerMessage, t: TaskId)
    requires Shape(conn, t) && report.Error?
    requires report.error.task == Some(t) ==> Complete(Marks(conn.sent, t))
    requires conn'.sent == conn.sent + [report] && conn'.tasks == conn.tasks && conn'.policy == conn.policy
    ensures Shape(conn', t)
  {
    hide Marks, LiveOk, Complete, LogsAfterStart, Authorize;
    SentMore(conn, conn', report, t);
    var v := Marks(conn.sent, t);
    if report.error.task == Some(t) {
      LateMark(v);
      if t in conn.tasks && conn.tasks[t].Live? { LateLive(conn.tasks[t], v, t); }
    } else {
      assert v + [] == v;
    }
  }

  lemma KillFailsKeeps(s: Sys, c: nat, message: string)
    requires Life(s) && HasMail(s, c) && Mail(s, c).KillTask?
    requires Complete(Marks(s.conns[c].sent, Mail(s, c).task))
    ensures Life(DoKillFails(s, c, message))
  {
    hide Life, Shape, Marks, Complete;
    var conn := s.conns[c];
    var report := Error(WorkerError(Some(conn.node), Some(Mail(s, c).task), message));
    var conn' := conn.(got := conn.got + 1, sent := conn.sent + [report]);
    AboutConn(s, c);
    assert MailOk(s.placed, c, conn.inbox[conn.got]);
    AboutTask(s, Mail(s, c).task);
    assert SentOk(s.placed, c, conn'.sent);
    forall t | t in s.placed && s.placed[t].conn == c ensures EndTask(s, conn', t) {
      AboutTask(s, t);
      MailTaken(conn, conn', t, Posted(s.runs, s.placed[t]));
      LateReport(conn, conn', report, t);
    }
    EndKeepsLife(s, c, conn');
  }

  // ---- Starting and following a task ----

  /** The message says nothing about `u`. */
  predicate Silent(message: WorkerMessage, u: TaskId) {
    MarkOf(message, u) == [] && !(message.Log? && message.log.task == u)
  }

  lemma OtherTask(conn: Conn, conn': Conn, t: TaskId, task': WorkerTask, out: seq<WorkerMessage>, u: TaskId)
    requires u != t && |out| <= 1 && (out != [] ==> Silent(out[0], u)) && Shape(conn, u)
    requires conn' == conn.(tasks := conn.tasks[t := task'], sent := conn.sent + out)
    ensures Shape(conn', u)
  {
    hide Marks, Complete, LiveOk, Authorize;
    if out == [] {
      assert conn'.sent == conn.sent;
    } else {
      assert out == [out[0]];
      SentMore(conn, conn', out[0], u);
      assert Marks(conn'.sent, u) == Marks(conn.sent, u);
    }
  }

  /** A step on task `t` that puts `out` into the channel. */
  lemma TaskStep(s: Sys, c: nat, t: TaskId, task': WorkerTask, out: seq<WorkerMessage>)
    requires Life(s) && c in s.conns && t in s.conns[c].tasks && |out| <= 1
    requires WorkerTaskOk(s.placed, c, t, task') && SentOk(s.placed, c, out)
    requires forall u :: u != t && out != [] ==> Silent(out[0], u)
    requires Shape(s.conns[c].(tasks := s.conns[c].tasks[t := task'], sent := s.conns[c].sent + out), t)
    ensures Life(WithTask(s, c, t, task', out))
  {
    hide Life, Shape, WorkerTaskOk;
    var conn := s.conns[c];
    var conn' := conn.(tasks := conn.tasks[t := task'], sent := conn.sent + out);
    AboutConn(s, c);
    forall u | u in s.placed && s.placed[u].conn == c ensures EndTask(s, conn', u) {
      AboutTask(s, u);
      if u != t { OtherTask(conn, conn', t, task', out, u); }
    }
    EndKeepsLife(s, c, conn');
  }

  lemma RejectShape(conn: Conn, t: TaskId, report: WorkerMessage)
    requires t in conn.tasks && conn.tasks[t].Received? && Shape(conn, t)
    requires report.Error? && report.error.task == Some(t)
    ensures Shape(conn.(tasks := conn.tasks[t := Rejected], sent := conn.sent + [report]), t)
  {
    SentMore(conn, conn.(tasks := conn.tasks[t := Rejected], sent := conn.sent + [report]), report, t);
  }

  lemma RejectKeeps(s: Sys, c: nat, t: TaskId, message: string)
    requires Life(s) && IsReceived(s, c, t)
    ensures Life(DoReject(s, c, t, message))
  {
    hide Life, Shape;
    var spec := s.conns[c].tasks[t].spec;
    AboutConn(s, c);
    assert WorkerTaskOk(s.placed, c, t, s.conns[c].tasks[t]);
    AboutTask(s, t);
    var report := Error(WorkerError(Some(spec.node), Some(spec.task), message));
    RejectShape(s.conns[c], t, report);
    TaskStep(s, c, t, Rejected, [report]);
  }

  lemma SpawnShape(conn: Conn, t: TaskId, start: WorkerMessage)
    requires t in conn.tasks && conn.tasks[t].Received? && Shape(conn, t)
    requires Authorize(conn.policy, conn.tasks[t].spec.argv).Allow?
    requires start.Started? && start.started.task == t
    ensures Shape(conn.(tasks := conn.tasks[t := Live(conn.tasks[t].spec, [start], 0, true)],
                        sent := conn.sent + []), t)
  {
    assert conn.sent + [] == conn.sent;
    MarksOfMore([], start, t);
    assert [] + [start] == [start];
  }

  lemma SpawnKeeps(s: Sys, c: nat, t: TaskId, pid: Option<nat>, now: Protocol.Time)
    requires Life(s) && CanSpawn(s, c, t)
    ensures Life(DoSpawn(s, c, t, pid, now))
  {
    hide Life, Shape;
    var spec := s.conns[c].tasks[t].spec;
    AboutConn(s, c);
    assert WorkerTaskOk(s.placed, c, t, s.conns[c].tasks[t]);
    AboutTask(s, t);
    var start := Started(TaskStarted(spec.job, spec.task, spec.node, pid, now));
    SpawnShape(s.conns[c], t, start);
    TaskStep(s, c, t, Live(spec, [start], 0, true), []);
  }

  lemma EventShape(conn: Conn, t: TaskId, event: WorkerMessage, alive': bool)
    requires t in conn.tasks && conn.tasks[t].Live? && Shape(conn, t)
    requires
      || (MarkOf(event, t) == [] && alive' == conn.tasks[t].alive)
      || (MarkOf(event, t) == [Ended] && conn.tasks[t].alive && !alive')
    ensures var task := conn.tasks[t];
      Shape(conn.(tasks := conn.tasks[t := task.(events := task.events + [event], alive := alive')],
                  sent := conn.sent + []), t)
  {
    var task := conn.tasks[t];
    var task' := task.(events := task.events + [event], alive := alive');
    assert conn.sent + [] == conn.sent;
    MarksOfMore(task.events, event, t);
    assert task'.events[..task.forwarded] == task.events[..task.forwarded];
    MarksOfPrefix(task.events, task.forwarded, t);
    assert LiveOk(task', Marks(conn.sent, t), t);
  }

  lemma EventAdded(s: Sys, c: nat, t: TaskId, event: WorkerMessage, alive': bool)
    requires Life(s) && IsLive(s, c, t) && MessageOk(s.placed, c, event) && Concerns(event, t)
    requires var task := s.conns[c].tasks[t];
      || (MarkOf(event, t) == [] && alive' == task.alive)
      || (MarkOf(event, t) == [Ended] && task.alive && !alive')
    ensures var task := s.conns[c].tasks[t];
      Life(WithTask(s, c, t, task.(events := task.events + [event], alive := alive'), []))
  {
    hide Life, Shape, MessageOk;
    var task := s.conns[c].tasks[t];
    AboutConn(s, c);
    assert WorkerTaskOk(s.placed, c, t, task);
    AboutTask(s, t);
    EventShape(s.conns[c], t, event, alive');
    TaskStep(s, c, t, task.(events := task.events + [event], alive := alive'), []);
  }

  lemma OutputKeeps(s: Sys, c: nat, t: TaskId, line: LogLine)
    requires Life(s) && CanOutput(s, c, t, line)
    ensures Life(DoOutput(s, c, t, line))
  {
    hide Life;
    AboutConn(s, c);
    assert WorkerTaskOk(s.placed, c, t, s.conns[c].tasks[t]);
    EventAdded(s, c, t, Log(line), s.conns[c].tasks[t].alive);
  }

  lemma ExitKeeps(s: Sys, c: nat, t: TaskId, exitCode: Option<int>, success: bool, now: Protocol.Time)
    requires Life(s) && CanExit(s, c, t)
    ensures Life(DoExit(s, c, t, exitCode, success, now))
  {
    hide Life;
    var spec := s.conns[c].tasks[t].spec;
    AboutConn(s, c);
    assert WorkerTaskOk(s.placed, c, t, s.conns[c].tasks[t]);
    EventAdded(s, c, t, Exited(TaskExited(spec.job, spec.task, spec.node, exitCode, success, now)), false);
  }

  /** Once the first event has been passed on, the start has been. */
  lemma StartPassed(task: WorkerTask, v: seq<Mark>, t: TaskId)
    requires task.Live? && LiveOk(task, v, t) && task.forwarded > 0
    ensures var passed := Marks(task.events[..task.forwarded], t); passed != [] && passed[0] == Begun
  {
    MarksOfPrefix(task.events[..task.forwarded], 1, t);
    assert task.events[..task.forwarded][..1] == [] + [task.events[0]];
    MarksOfMore([], task.events[0], t);
  }

  /** Passing on the next event keeps what was sent in step with what was passed on. */
  lemma ForwardLive(task: WorkerTask, v: seq<Mark>, t: TaskId)
    requires task.Live? && LiveOk(task, v, t) && Legal(v) && task.forwarded < |task.events|
    ensures var mark := MarkOf(task.events[task.forwarded], t);
      LiveOk(task.(forwarded := task.forwarded + 1), v + mark, t) && Legal(v + mark)
  {
    hide Marks, MarkOf;
    MarksOfNext(task.events, task.forwarded, t);
    MarksOfPrefix(task.events, task.forwarded, t);
    MarksOfPrefix(task.events, task.forwarded + 1, t);
  }

  lemma ForwardShape(conn: Conn, t: TaskId)
    requires t in conn.tasks && conn.tasks[t].Live? && Shape(conn, t)
    requires conn.tasks[t].forwarded < |conn.tasks[t].events|
    ensures var task := conn.tasks[t];
      Shape(conn.(tasks := conn.tasks[t := task.(forwarded := task.forwarded + 1)],
                  sent := conn.sent + [task.events[task.forwarded]]), t)
  {
    var task := conn.tasks[t];
    var v := Marks(conn.sent, t);
    ForwardLive(task, v, t);
    if task.forwarded > 0 { StartPassed(task, v, t); }
    SentMore(conn,
      conn.(tasks := conn.tasks[t := task.(forwarded := task.forwarded + 1)],
            sent := conn.sent + [task.events[task.forwarded]]),
      task.events[task.forwarded], t);
  }

  lemma ForwardKeeps(s: Sys, c: nat, t: TaskId)
    requires Life(s) && CanForward(s, c, t)
    ensures Life(DoForward(s, c, t))
  {
    hide Life, Shape;
    var task := s.conns[c].tasks[t];
    AboutConn(s, c);
    assert WorkerTaskOk(s.placed, c, t, task);
    AboutTask(s, t);
    ForwardShape(s.conns[c], t);
    assert Concerns(task.events[task.forwarded], t);
    TaskStep(s, c, t, task.(forwarded := task.forwarded + 1), [task.events[task.forwarded]]);
  }

  lemma WorkKeepsLife(s: Sys, c: nat, step: WorkStep, s': Sys)
    requires Life(s) && NextWork(s, c, step, s') && Honest(s, Work(c, step))
    ensures Life(s')
  {
    hide Life, Complete;
    match step
    case Receive => ReceiveKeeps(s, c);
    case KillSucceeds => KillSucceedsKeeps(s, c);
    case KillFails(message) => KillFailsKeeps(s, c, message);
    case Reject(t, message) => RejectKeeps(s, c, t, message);
    case Spawn(t, pid, now) => SpawnKeeps(s, c, t, pid, now);
    case Output(t, line) => OutputKeeps(s, c, t, line);
    case Exit(t, exitCode, success, now) => ExitKeeps(s, c, t, exitCode, success, now);
    case Forward(t) => ForwardKeeps(s, c, t);
  }
}
