/** What holds in every state of the whole system when workers follow their program, an id registers only while it is
    absent, and a kill fails only for a task whose worker has already given its verdict. */
module Lifecycle {
  import opened Protocol
  import opened JobStore
  import opened CoordinatorCore
  import opened WaitLoop
  import opened Policy
  import opened Cluster
  import opened WakeUp

  // ---- The verdict a worker gives on a task ----

  datatype Mark = Begun | Ended | Failure

  function MarkOf(message: WorkerMessage, t: TaskId): seq<Mark> {
    match message
    case Started(e) => if e.task == t then [Begun] else []
    case Exited(e) => if e.task == t then [Ended] else []
    case Error(e) => if e.task == Some(t) then [Failure] else []
    case _ => []
  }

  /** Everything but the logs that was said about `t`. */
  function Marks(messages: seq<WorkerMessage>, t: TaskId): seq<Mark> {
    if messages == [] then []
    else Marks(messages[..|messages| - 1], t) + MarkOf(messages[|messages| - 1], t)
  }

  /** One error and no start, or a start and an exit; after that only reports of kills that came too late. */
  predicate Complete(v: seq<Mark>) {
    || (|v| >= 1 && v[0] == Failure && forall i :: 1 <= i < |v| ==> v[i] == Failure)
    || (|v| >= 2 && v[0] == Begun && v[1] == Ended && forall i :: 2 <= i < |v| ==> v[i] == Failure)
  }

  predicate Legal(v: seq<Mark>) {
    v == [] || v == [Begun] || Complete(v)
  }

  /** Every log line of `t` comes after its start. */
  predicate LogsAfterStart(messages: seq<WorkerMessage>, t: TaskId) {
    forall i :: 0 <= i < |messages| && messages[i].Log? && messages[i].log.task == t ==>
      Marks(messages[..i], t) != [] && Marks(messages[..i], t)[0] == Begun
  }

  predicate LiveOk(task: WorkerTask, v: seq<Mark>, t: TaskId)
    requires task.Live?
  {
    && task.forwarded <= |task.events| && |task.events| >= 1
    && task.events[0].Started? && task.events[0].started.task == t
    && Marks(task.events, t) == (if task.alive then [Begun] else [Begun, Ended])
    && (v != [] ==> v[0] == Begun)
    && var passed := Marks(task.events[..task.forwarded], t);
       v == passed || (Complete(v) && passed == [Begun, Ended])
  }

  /** What the worker has said about `t` fits what it has done with it. */
  predicate Shape(conn: Conn, t: TaskId) {
    var v := Marks(conn.sent, t);
    && Legal(v)
    && LogsAfterStart(conn.sent, t)
    && (t !in conn.tasks || conn.tasks[t].Received? ==> v == [])
    && (t in conn.tasks && conn.tasks[t].Rejected? ==> Complete(v) && v[0] == Failure)
    && (t in conn.tasks && conn.tasks[t].Live? ==>
          LiveOk(conn.tasks[t], v, t) && Authorize(conn.policy, conn.tasks[t].spec.argv).Allow?)
  }

  // ---- Delivery ----

  function Starts(inbox: seq<CoordinatorMessage>, t: TaskId): nat {
    if inbox == [] then 0
    else
      var last := inbox[|inbox| - 1];
      Starts(inbox[..|inbox| - 1], t) + if last.StartTask? && last.spec.task == t then 1 else 0
  }

  /** StartTask for `t` was put into the channel once if it was posted, and taken out once if the worker knows `t`. */
  predicate Delivered(conn: Conn, t: TaskId, posted: bool) {
    && conn.got <= |conn.inbox|
    && Starts(conn.inbox, t) == (if posted then 1 else 0)
    && (t in conn.tasks <==> Starts(conn.inbox[..conn.got], t) == 1)
  }

  // ---- Handlers under way ----

  /** `t` has left the index and its exit is still to be stored. */
  predicate Unrecorded(cont: Cont, t: TaskId) {
    match cont
    case RecordExit(e, then_) => e.task == t || QueuedBehind(then_, t)
    case SendExit(_, then_) => QueuedBehind(then_, t)
    case LogLost(_, rest) => Lists(rest, t)
    case SendLostLog(_, rest, line) => line.task == t || Lists(rest, t)
    case _ => false
  }

  /** The exit of `t` is stored and still to be broadcast. */
  predicate Unsent(cont: Cont, t: TaskId) {
    || (cont.UnindexExited? && cont.exit.task == t)
    || (cont.SendExit? && cont.exit.task == t)
  }

  type Placed = map<TaskId, Cluster.Place>

  predicate Owns(placed: Placed, c: nat, job: JobId, t: TaskId, node: NodeId) {
    t in placed && placed[t].conn == c && placed[t].job == job && placed[t].node == node
  }

  /** The tasks a lost node leaves behind, each once, all of this connection. */
  predicate RestOk(placed: Placed, c: nat, node: NodeId, rest: seq<(TaskId, JobId)>) {
    && (forall i :: 0 <= i < |rest| ==> Owns(placed, c, rest[i].1, rest[i].0, node))
    && (forall i, j :: 0 <= i < j < |rest| ==> rest[i].0 != rest[j].0)
  }

  predicate ThenOk(placed: Placed, c: nat, conn: Conn, e: TaskExited, then_: Then) {
    match then_
    case NextLost(node, rest) =>
      !conn.open && node == conn.node && RestOk(placed, c, node, rest) && !Lists(rest, e.task)
    case _ => conn.open
  }

  predicate RowSays(rows: Rows, e: TaskExited) {
    e.task in rows && rows[e.task].status == StatusOf(e)
  }

  predicate ContOk(placed: Placed, rows: Rows, c: nat, conn: Conn) {
    match conn.cont
    case Idle => conn.open
    case IndexStarted(e) =>
      conn.open && Owns(placed, c, e.job, e.task, e.node) && e.task in rows && rows[e.task].status.Running?
    case UnindexExited(e) => conn.open && Owns(placed, c, e.job, e.task, e.node) && RowSays(rows, e)
    case RecordExit(e, then_) =>
      Owns(placed, c, e.job, e.task, e.node) && !e.success && !then_.Return? && ThenOk(placed, c, conn, e, then_)
    case SendExit(e, then_) =>
      Owns(placed, c, e.job, e.task, e.node) && RowSays(rows, e) && ThenOk(placed, c, conn, e, then_)
    case SendLast(event) => conn.open && !event.ExitedEvent?
    case LogLost(node, rest) => !conn.open && node == conn.node && RestOk(placed, c, node, rest)
    case SendLostLog(node, rest, line) =>
      && !conn.open && node == conn.node && RestOk(placed, c, node, rest)
      && Owns(placed, c, line.job, line.task, line.node) && line.node == node && !Lists(rest, line.task)
    case Gone => !conn.open
  }

  // ---- Connections ----

  predicate MessageOk(placed: Placed, c: nat, message: WorkerMessage) {
    match message
    case Heartbeat(_, _) => true
    case Started(e) => Owns(placed, c, e.job, e.task, e.node)
    case Log(l) => Owns(placed, c, l.job, l.task, l.node)
    case Exited(e) => Owns(placed, c, e.job, e.task, e.node)
    case Error(e) => e.node.Some? && e.task.Some? && e.task.value in placed
                     && Owns(placed, c, placed[e.task.value].job, e.task.value, e.node.value)
  }

  /** An executor event of task `t`. */
  predicate Concerns(message: WorkerMessage, t: TaskId) {
    match message
    case Started(e) => e.task == t
    case Log(l) => l.task == t
    case Exited(e) => e.task == t
    case _ => false
  }

  predicate SentOk(placed: Placed, c: nat, sent: seq<WorkerMessage>) {
    forall i :: 0 <= i < |sent| ==> MessageOk(placed, c, sent[i])
  }

  predicate MailOk(placed: Placed, c: nat, message: CoordinatorMessage) {
    match message
    case StartTask(spec) => Owns(placed, c, spec.job, spec.task, spec.node)
    case KillTask(t) => t in placed && placed[t].conn == c
  }

  predicate InboxOk(placed: Placed, c: nat, inbox: seq<CoordinatorMessage>) {
    forall i :: 0 <= i < |inbox| ==> MailOk(placed, c, inbox[i])
  }

  predicate AllAbout(events: seq<WorkerMessage>, t: TaskId) {
    forall i :: 0 <= i < |events| ==> Concerns(events[i], t)
  }

  predicate WorkerTaskOk(placed: Placed, c: nat, t: TaskId, task: WorkerTask) {
    && t in placed && placed[t].conn == c
    && (!task.Rejected? ==> task.spec.task == t && Owns(placed, c, task.spec.job, t, task.spec.node))
    && (task.Live? ==> SentOk(placed, c, task.events) && AllAbout(task.events, t))
  }

  predicate TasksOk(placed: Placed, c: nat, tasks: map<TaskId, WorkerTask>) {
    forall t :: t in tasks ==> WorkerTaskOk(placed, c, t, tasks[t])
  }

  predicate ConnOk(placed: Placed, core: Core, c: nat, conn: Conn) {
    && ContOk(placed, core.rows, c, conn)
    && conn.read <= |conn.sent| && conn.got <= |conn.inbox|
    && (conn.open ==> conn.node in core.nodes && core.nodes[conn.node].conn == c)
    && SentOk(placed, c, conn.sent)
    && InboxOk(placed, c, conn.inbox)
    && TasksOk(placed, c, conn.tasks)
  }

  // ---- Tasks ----

  /** The row of `t` says what has been handled of its verdict. */
  predicate StatusOk(conn: Conn, status: Status, t: TaskId) {
    && conn.read <= |conn.sent|
    && var heard := Marks(conn.sent[..conn.read], t);
       if !conn.open then Unfinished(status) <==> Unrecorded(conn.cont, t)
       else if Unrecorded(conn.cont, t) then status.Queued? && Complete(heard)
       else
         && (heard == [] ==> status.Queued?)
         && (heard == [Begun] ==> status.Running?)
         && (heard != [] && heard != [Begun] ==> !Unfinished(status))
  }

  predicate AtHome(nodes: map<NodeId, Handle>, p: Place, t: TaskId) {
    p.node in nodes && nodes[p.node].conn == p.conn && t in nodes[p.node].running
  }

  predicate OnlyAt(nodes: map<NodeId, Handle>, p: Place, t: TaskId) {
    forall n :: n in nodes && t in nodes[n].running ==>
      n == p.node && nodes[n].conn == p.conn && nodes[n].running[t] == p.job
  }

  /** `t` is indexed at its own node exactly while it is unfinished, but for the sections that move it. */
  predicate IndexOk(nodes: map<NodeId, Handle>, conn: Conn, p: Place, status: Status, t: TaskId) {
    && OnlyAt(nodes, p, t)
    && (AtHome(nodes, p, t) <==>
          conn.open && !Unrecorded(conn.cont, t)
          && (Unfinished(status) || (conn.cont.UnindexExited? && conn.cont.exit.task == t)))
  }

  function Exits(events: seq<CoordinatorEvent>, t: TaskId): seq<TaskExited> {
    if events == [] then []
    else
      var last := events[|events| - 1];
      Exits(events[..|events| - 1], t) + if last.ExitedEvent? && last.exited.task == t then [last.exited] else []
  }

  /** The log holds one exit of `t`, the one in its row, once the row is finished and the exit was sent; none before. */
  predicate EventsOk(events: seq<CoordinatorEvent>, cont: Cont, p: Place, status: Status, t: TaskId) {
    var exits := Exits(events, t);
    if Unfinished(status) || Unsent(cont, t) then exits == []
    else |exits| == 1 && StatusOf(exits[0]) == status && exits[0].job == p.job && exits[0].node == p.node
  }

  predicate PlaceOk(runs: map<nat, Run>, t: TaskId, p: Place) {
    && p.run in runs && !runs[p.run].phase.Subscribed?
    && runs[p.run].job == p.job
    && p.index < |runs[p.run].assignments|
    && runs[p.run].assignments[p.index] == TaskAssignment(p.job, t, p.node)
  }

  predicate Posted(runs: map<nat, Run>, p: Place) {
    p.run in runs && p.index < runs[p.run].next
  }

  /** Everything known about a placed task, given its connection. */
  predicate TaskIn(core: Core, runs: map<nat, Run>, conn: Conn, p: Place, t: TaskId) {
    && t in core.rows && core.rows[t].job == p.job && core.rows[t].node == p.node && conn.node == p.node
    && PlaceOk(runs, t, p)
    && Delivered(conn, t, Posted(runs, p))
    && Shape(conn, t)
    && StatusOk(conn, core.rows[t].status, t)
    && IndexOk(core.nodes, conn, p, core.rows[t].status, t)
    && EventsOk(core.events, conn.cont, p, core.rows[t].status, t)
  }

  predicate TaskOk(s: Sys, t: TaskId) {
    t in s.placed && s.placed[t].conn in s.conns && TaskIn(s.core, s.runs, s.conns[s.placed[t].conn], s.placed[t], t)
  }

  // ---- Runs ----

  /** Assignment `a` of run `r`, its `i`th, is placed where dispatch entry `d` sends it. */
  predicate DispatchOk(placed: Placed, r: nat, job: JobId, a: TaskAssignment, d: (nat, RunSpec), i: nat) {
    && a.task in placed && placed[a.task] == Cluster.Place(job, a.node, d.0, r, i)
    && a.job == job
    && d.1.job == job && d.1.task == a.task && d.1.node == a.node
  }

  predicate DispatchesOk(
      placed: Placed, r: nat, job: JobId, assignments: seq<TaskAssignment>, dispatch: seq<(nat, RunSpec)>)
  {
    && |assignments| == |dispatch|
    && (forall i :: 0 <= i < |dispatch| ==> DispatchOk(placed, r, job, assignments[i], dispatch[i], i))
  }

  predicate JobOwned(placed: Placed, rows: Rows, r: nat, job: JobId) {
    forall t :: t in rows && rows[t].job == job ==> t in placed && placed[t].run == r
  }

  predicate Collected(events: seq<CoordinatorEvent>, assignments: seq<TaskAssignment>, w: Waiting) {
    && w.pending <= Assigned(assignments)
    && (forall i :: 0 <= i < |w.exits| ==>
          ExitedEvent(w.exits[i]) in events && w.exits[i].task in Assigned(assignments))
    && (forall t :: t in Assigned(assignments) && t !in w.pending ==>
          exists i :: 0 <= i < |w.exits| && w.exits[i].task == t)
  }

  predicate RunOk(placed: Placed, core: Core, r: nat, run: Run) {
    if run.phase.Subscribed? then run.next == 0
    else
      && run.next <= |run.dispatch|
      && DispatchesOk(placed, r, run.job, run.assignments, run.dispatch)
      && JobOwned(placed, core.rows, r, run.job)
      && (run.phase.Following? || run.phase.Finished? ==> Collected(core.events, run.assignments, run.waiting))
      && (run.phase.Finished? ==>
            run.waiting.pending == {}
            && (run.success <==> forall i :: 0 <= i < |run.waiting.exits| ==> run.waiting.exits[i].success))
  }

  predicate KillOk(placed: Placed, kill: seq<(nat, TaskId)>) {
    forall i :: 0 <= i < |kill| ==> kill[i].1 in placed && placed[kill[i].1].conn == kill[i].0
  }

  predicate NodeOk(placed: Placed, conns: map<nat, Conn>, n: NodeId, h: Handle) {
    && h.conn in conns && conns[h.conn].node == n && conns[h.conn].open
    && forall t :: t in h.running ==> t in placed
  }

  predicate NodesOk(s: Sys) {
    forall n :: n in s.core.nodes ==> NodeOk(s.placed, s.conns, n, s.core.nodes[n])
  }

  /** Rows and exits of other coordinator runs or of no task at all play no part. */
  predicate HistoryOk(placed: Placed, core: Core) {
    && (forall t :: t in core.rows && t !in placed ==> !Unfinished(core.rows[t].status))
    && (forall i :: 0 <= i < |core.events| && core.events[i].ExitedEvent? ==> core.events[i].exited.task in placed)
  }

  predicate ConnsOk(s: Sys) {
    forall c :: c in s.conns ==> ConnOk(s.placed, s.core, c, s.conns[c])
  }

  predicate AllTasksOk(s: Sys) {
    forall t :: t in s.placed ==> TaskOk(s, t)
  }

  predicate RunsOk(s: Sys) {
    forall r :: r in s.runs ==> RunOk(s.placed, s.core, r, s.runs[r])
  }

  predicate KillsOk(s: Sys) {
    forall k :: k in s.kills ==> KillOk(s.placed, s.kills[k])
  }

  predicate Life(s: Sys) {
    NodesOk(s) && HistoryOk(s.placed, s.core) && ConnsOk(s) && AllTasksOk(s) && RunsOk(s) && KillsOk(s)
  }

  lemma MakeLife(s: Sys)
    requires NodesOk(s) && HistoryOk(s.placed, s.core) && RunsOk(s) && KillsOk(s)
    requires forall c :: c in s.conns ==> ConnOk(s.placed, s.core, c, s.conns[c])
    requires forall t :: t in s.placed ==> TaskOk(s, t)
    ensures Life(s)
  {
    hide NodesOk, HistoryOk, RunsOk, KillsOk, ConnOk, TaskOk;
  }

  lemma AboutConn(s: Sys, c: nat)
    requires Life(s) && c in s.conns
    ensures ConnOk(s.placed, s.core, c, s.conns[c])
  {
  }

  lemma AboutTask(s: Sys, t: TaskId)
    requires Life(s) && t in s.placed
    ensures TaskOk(s, t)
  {
  }

  /** The steps the lifecycle is promised for. */
  predicate Honest(s: Sys, step: Step) {
    match step
    case Wire(Register(_, node, _)) => node !in s.core.nodes
    case Work(_, Forge(_)) => false
    case Work(c, KillFails(_)) =>
      HasMail(s, c) && Mail(s, c).KillTask? ==> Complete(Marks(s.conns[c].sent, Mail(s, c).task))
    case _ => true
  }

  // ---- Facts about the recorded sequences ----

  lemma MarksOfMore(messages: seq<WorkerMessage>, message: WorkerMessage, t: TaskId)
    ensures Marks(messages + [message], t) == Marks(messages, t) + MarkOf(message, t)
  {
    assert (messages + [message])[..|messages|] == messages;
  }

  lemma MarksOfNext(messages: seq<WorkerMessage>, k: nat, t: TaskId)
    requires k < |messages|
    ensures Marks(messages[..k + 1], t) == Marks(messages[..k], t) + MarkOf(messages[k], t)
  {
    assert messages[..k + 1] == messages[..k] + [messages[k]];
    MarksOfMore(messages[..k], messages[k], t);
  }

  lemma {:induction false} MarksOfPrefix(messages: seq<WorkerMessage>, k: nat, t: TaskId)
    requires k <= |messages|
    ensures Marks(messages[..k], t) <= Marks(messages, t)
  {
    if k < |messages| {
      var last := |messages| - 1;
      assert messages[..last][..k] == messages[..k];
      MarksOfPrefix(messages[..last], k, t);
    } else {
      assert messages[..k] == messages;
    }
  }

  lemma {:induction false} NoMarks(messages: seq<WorkerMessage>, t: TaskId)
    requires forall i :: 0 <= i < |messages| ==> MarkOf(messages[i], t) == []
    ensures Marks(messages, t) == []
  {
    if messages != [] {
      NoMarks(messages[..|messages| - 1], t);
    }
  }

  lemma StartsOfMore(inbox: seq<CoordinatorMessage>, message: CoordinatorMessage, t: TaskId)
    ensures Starts(inbox + [message], t) ==
            Starts(inbox, t) + if message.StartTask? && message.spec.task == t then 1 else 0
  {
    assert (inbox + [message])[..|inbox|] == inbox;
  }

  lemma StartsOfNext(inbox: seq<CoordinatorMessage>, k: nat, t: TaskId)
    requires k < |inbox|
    ensures Starts(inbox[..k + 1], t) ==
            Starts(inbox[..k], t) + if inbox[k].StartTask? && inbox[k].spec.task == t then 1 else 0
  {
    assert inbox[..k + 1] == inbox[..k] + [inbox[k]];
    StartsOfMore(inbox[..k], inbox[k], t);
  }

  lemma {:induction false} StartsOfPrefix(inbox: seq<CoordinatorMessage>, k: nat, t: TaskId)
    requires k <= |inbox|
    ensures Starts(inbox[..k], t) <= Starts(inbox, t)
  {
    if k < |inbox| {
      var last := |inbox| - 1;
      assert inbox[..last][..k] == inbox[..k];
      StartsOfPrefix(inbox[..last], k, t);
    } else {
      assert inbox[..k] == inbox;
    }
  }

  lemma {:induction false} NoStarts(inbox: seq<CoordinatorMessage>, t: TaskId)
    requires forall i :: 0 <= i < |inbox| && inbox[i].StartTask? ==> inbox[i].spec.task != t
    ensures Starts(inbox, t) == 0
  {
    if inbox != [] {
      NoStarts(inbox[..|inbox| - 1], t);
    }
  }

  lemma ExitsOfMore(events: seq<CoordinatorEvent>, event: CoordinatorEvent, t: TaskId)
    ensures Exits(events + [event], t) ==
            Exits(events, t) + if event.ExitedEvent? && event.exited.task == t then [event.exited] else []
  {
    assert (events + [event])[..|events|] == events;
  }

  lemma {:induction false} ExitsFind(events: seq<CoordinatorEvent>, e: TaskExited)
    requires ExitedEvent(e) in events
    ensures e in Exits(events, e.task)
  {
    if events[|events| - 1] != ExitedEvent(e) {
      ExitsFind(events[..|events| - 1], e);
    }
  }

  lemma {:induction false} NoExits(events: seq<CoordinatorEvent>, t: TaskId)
    requires forall i :: 0 <= i < |events| && events[i].ExitedEvent? ==> events[i].exited.task != t
    ensures Exits(events, t) == []
  {
    if events != [] {
      NoExits(events[..|events| - 1], t);
    }
  }

  /** The next mark of a legal verdict is determined by those before it. */
  lemma NextMark(messages: seq<WorkerMessage>, k: nat, t: TaskId)
    requires k < |messages| && Legal(Marks(messages, t))
    ensures var heard := Marks(messages[..k], t);
      && Legal(heard)
      && Marks(messages[..k + 1], t) == heard + MarkOf(messages[k], t)
      && (MarkOf(messages[k], t) == [Begun] ==> heard == [])
      && (MarkOf(messages[k], t) == [Ended] ==> heard == [Begun])
      && (MarkOf(messages[k], t) == [Failure] ==> heard == [] || Complete(heard))
  {
    MarksOfPrefix(messages, k, t);
    MarksOfPrefix(messages, k + 1, t);
    MarksOfNext(messages, k, t);
    var v, heard := Marks(messages, t), Marks(messages[..k], t);
    assert heard == v[..|heard|];
    if MarkOf(messages[k], t) != [] {
      assert v[|heard|] == MarkOf(messages[k], t)[0];
    }
  }
}
