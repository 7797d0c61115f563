/** Steps of the coordinator on worker connections keep the lifecycle invariant. */
module CoordinatorSteps {
  import opened Protocol
  import opened JobStore
  import opened CoordinatorCore
  import opened Policy
  import opened Cluster
  import opened WakeUp
  import opened Lifecycle
  import opened WorkerSteps

  // ---- What a step leaves alone ----

  predicate SameIndex(nodes: map<NodeId, Handle>, nodes': map<NodeId, Handle>, t: TaskId) {
    && (forall n :: n in nodes' && t in nodes'[n].running ==>
          n in nodes && t in nodes[n].running && nodes'[n].conn == nodes[n].conn
          && nodes'[n].running[t] == nodes[n].running[t])
    && (forall n :: n in nodes && t in nodes[n].running ==>
          n in nodes' && t in nodes'[n].running && nodes'[n].conn == nodes[n].conn)
  }

  /** Nothing about `t` differs between the two. */
  predicate SameFor(core: Core, core': Core, t: TaskId) {
    && t in core.rows && t in core'.rows && core'.rows[t] == core.rows[t]
    && SameIndex(core.nodes, core'.nodes, t)
    && Exits(core'.events, t) == Exits(core.events, t)
  }

  predicate RowsKept(rows: Rows, rows': Rows) {
    rows'.Keys == rows.Keys && forall t :: t in rows ==> rows'[t].job == rows[t].job && rows'[t].node == rows[t].node
  }

  /** No handle is added or moved, no index grows, and only the handle of connection `c` may go. */
  predicate NodesShrink(nodes: map<NodeId, Handle>, nodes': map<NodeId, Handle>, c: nat) {
    && (forall n :: n in nodes' ==>
          n in nodes && nodes'[n].conn == nodes[n].conn && nodes'[n].running.Keys <= nodes[n].running.Keys)
    && (forall n :: n in nodes && nodes[n].conn != c ==> n in nodes')
  }

  /** At most one event was broadcast, and an exit only of a placed task. */
  predicate EventsGrowBy(events: seq<CoordinatorEvent>, events': seq<CoordinatorEvent>, placed: Placed) {
    || events' == events
    || (|events'| == |events| + 1 && events <= events'
        && (events'[|events|].ExitedEvent? ==> events'[|events|].exited.task in placed))
  }

  lemma RunKept(s: Sys, core': Core, r: nat)
    requires r in s.runs && RunOk(s.placed, s.core, r, s.runs[r])
    requires RowsKept(s.core.rows, core'.rows) && EventsGrowBy(s.core.events, core'.events, s.placed)
    ensures RunOk(s.placed, core', r, s.runs[r])
  {
    hide DispatchesOk;
  }

  lemma HistoryKept(s: Sys, core': Core)
    requires HistoryOk(s.placed, s.core)
    requires RowsKept(s.core.rows, core'.rows) && EventsGrowBy(s.core.events, core'.events, s.placed)
    requires forall t :: t in s.core.rows && t !in s.placed ==> core'.rows[t] == s.core.rows[t]
    ensures HistoryOk(s.placed, core')
  {
  }

  /** Connection `d` is not affected by a step on another one. */
  lemma ConnKept(s: Sys, c: nat, core': Core, d: nat)
    requires d in s.conns && d != c && ConnOk(s.placed, s.core, d, s.conns[d])
    requires NodesShrink(s.core.nodes, core'.nodes, c)
    requires forall t :: t in s.placed && s.placed[t].conn == d ==> SameFor(s.core, core', t)
    ensures ConnOk(s.placed, core', d, s.conns[d])
  {
    hide SentOk, InboxOk, TasksOk, SameIndex, RestOk, ThenOk;
  }

  lemma TaskKept(core: Core, core': Core, runs: map<nat, Run>, conn: Conn, p: Cluster.Place, t: TaskId)
    requires TaskIn(core, runs, conn, p, t) && SameFor(core, core', t)
    ensures TaskIn(core', runs, conn, p, t)
  {
    hide Delivered, Shape, StatusOk, PlaceOk, Exits;
  }

  predicate SameEnd(conn: Conn, conn': Conn) {
    && conn'.node == conn.node && conn'.policy == conn.policy && conn'.sent == conn.sent
    && conn'.inbox == conn.inbox && conn'.got == conn.got && conn'.tasks == conn.tasks
  }

  ghost predicate TasksMove(s: Sys, c: nat, core': Core, conn': Conn) {
    forall t :: t in s.placed ==>
      if s.placed[t].conn == c then TaskIn(core', s.runs, conn', s.placed[t], t) else SameFor(s.core, core', t)
  }

  lemma NodesKept(s: Sys, c: nat, core': Core, conn': Conn)
    requires NodesOk(s) && c in s.conns && conn'.node == s.conns[c].node
    requires NodesShrink(s.core.nodes, core'.nodes, c)
    requires conn'.open || forall n :: n in core'.nodes ==> core'.nodes[n].conn != c
    ensures NodesOk(WithConn(s, c, conn').(core := core'))
  {
    forall n | n in core'.nodes ensures NodeOk(s.placed, s.conns[c := conn'], n, core'.nodes[n]) {
      assert NodeOk(s.placed, s.conns, n, s.core.nodes[n]);
    }
  }

  lemma CoreStepKeeps(s: Sys, c: nat, core': Core, conn': Conn)
    requires Life(s) && c in s.conns && SameEnd(s.conns[c], conn')
    requires ConnOk(s.placed, core', c, conn')
    requires NodesShrink(s.core.nodes, core'.nodes, c)
    requires conn'.open || forall n :: n in core'.nodes ==> core'.nodes[n].conn != c
    requires RowsKept(s.core.rows, core'.rows) && EventsGrowBy(s.core.events, core'.events, s.placed)
    requires forall t :: t in s.core.rows && t !in s.placed ==> core'.rows[t] == s.core.rows[t]
    requires TasksMove(s, c, core', conn')
    ensures Life(WithConn(s, c, conn').(core := core'))
  {
    hide ConnOk, TaskIn, SameFor, RunOk, KillOk, NodesShrink, RowsKept, EventsGrowBy, NodeOk, HistoryOk, NodesOk;
    var s' := WithConn(s, c, conn').(core := core');
    forall d | d in s'.conns ensures ConnOk(s'.placed, s'.core, d, s'.conns[d]) {
      if d != c { ConnKept(s, c, core', d); }
    }
    forall t | t in s'.placed ensures TaskOk(s', t) {
      assert TaskOk(s, t);
      if s.placed[t].conn != c {
        TaskKept(s.core, core', s.runs, s.conns[s.placed[t].conn], s.placed[t], t);
      }
    }
    forall r | r in s'.runs ensures RunOk(s'.placed, s'.core, r, s'.runs[r]) { RunKept(s, core', r); }
    NodesKept(s, c, core', conn');
    HistoryKept(s, core');
  }

  // ---- A task the step is not about ----

  /** Same connection, another task: nothing about `t` was read, and the handler holds it as before. */
  lemma BystanderKept(
      core: Core, core': Core, runs: map<nat, Run>, conn: Conn, conn': Conn, p: Cluster.Place, t: TaskId)
    requires TaskIn(core, runs, conn, p, t) && SameFor(core, core', t) && SameEnd(conn, conn')
    requires conn'.open == conn.open && conn'.read <= |conn.sent|
    requires Marks(conn'.sent[..conn'.read], t) == Marks(conn.sent[..conn.read], t)
    requires Unrecorded(conn'.cont, t) == Unrecorded(conn.cont, t)
    requires Unsent(conn'.cont, t) == Unsent(conn.cont, t)
    requires (conn'.cont.UnindexExited? && conn'.cont.exit.task == t)
      == (conn.cont.UnindexExited? && conn.cont.exit.task == t)
    ensures TaskIn(core', runs, conn', p, t)
  {
    hide Marks, PlaceOk, Exits, Unrecorded, Unsent;
    assert Shape(conn', t) by { hide StatusOk, IndexOk, EventsOk; }
    hide Shape;
  }

  // ---- Reading a message ----

  lemma ReadBystander(
      core: Core, core': Core, runs: map<nat, Run>, conn: Conn, conn': Conn, p: Cluster.Place, t: TaskId)
    requires TaskIn(core, runs, conn, p, t) && SameFor(core, core', t) && SameEnd(conn, conn')
    requires conn.cont.Idle? && conn'.open == conn.open && conn'.read == conn.read + 1 <= |conn.sent|
    requires MarkOf(conn.sent[conn.read], t) == []
    requires !Unrecorded(conn'.cont, t) && !Unsent(conn'.cont, t)
    ensures TaskIn(core', runs, conn', p, t)
  {
    MarksOfNext(conn.sent, conn.read, t);
    BystanderKept(core, core', runs, conn, conn', p, t);
  }

  /** What the worker said and did does not depend on how much of it was read. */
  lemma ShapeKept(conn: Conn, conn': Conn, t: TaskId)
    requires SameEnd(conn, conn') && Shape(conn, t)
    ensures Shape(conn', t)
    ensures forall posted :: Delivered(conn, t, posted) ==> Delivered(conn', t, posted)
  {
    hide LiveOk, LogsAfterStart, Complete, Marks, Starts;
  }

  lemma ShapeIsLegal(conn: Conn, t: TaskId)
    requires Shape(conn, t)
    ensures Legal(Marks(conn.sent, t))
  {
    hide LiveOk, LogsAfterStart, Complete, Marks;
  }

  /** The next message is read while no handler is under way. */
  predicate ReadsNow(conn: Conn, message: WorkerMessage) {
    conn.cont.Idle? && conn.open && conn.read < |conn.sent| && conn.sent[conn.read] == message
  }

  lemma StartedStatus(conn: Conn, status: Status, e: TaskStarted)
    requires ReadsNow(conn, Started(e)) && StatusOk(conn, status, e.task) && Legal(Marks(conn.sent, e.task))
    ensures status.Queued?
    ensures StatusOk(conn.(read := conn.read + 1, cont := IndexStarted(e)), Running, e.task)
  {
    NextMark(conn.sent, conn.read, e.task);
    hide Marks, Complete;
  }

  lemma ExitedStatus(conn: Conn, status: Status, e: TaskExited)
    requires ReadsNow(conn, Exited(e)) && StatusOk(conn, status, e.task) && Legal(Marks(conn.sent, e.task))
    ensures status.Running?
    ensures StatusOk(conn.(read := conn.read + 1, cont := UnindexExited(e)), StatusOf(e), e.task)
  {
    NextMark(conn.sent, conn.read, e.task);
    hide Marks, Complete;
  }

  lemma StartedIndex(nodes: map<NodeId, Handle>, conn: Conn, p: Cluster.Place, status: Status, e: TaskStarted)
    requires ReadsNow(conn, Started(e)) && IndexOk(nodes, conn, p, status, e.task) && Unfinished(status)
    ensures IndexOk(nodes, conn.(read := conn.read + 1, cont := IndexStarted(e)), p, Running, e.task)
  {
    hide OnlyAt, AtHome;
  }

  lemma ExitedIndex(nodes: map<NodeId, Handle>, conn: Conn, p: Cluster.Place, status: Status, e: TaskExited)
    requires ReadsNow(conn, Exited(e)) && IndexOk(nodes, conn, p, status, e.task) && Unfinished(status)
    ensures IndexOk(nodes, conn.(read := conn.read + 1, cont := UnindexExited(e)), p, StatusOf(e), e.task)
  {
    hide OnlyAt, AtHome;
  }

  lemma StartedSubject(core: Core, runs: map<nat, Run>, conn: Conn, p: Cluster.Place, e: TaskStarted)
    requires TaskIn(core, runs, conn, p, e.task)
    requires conn.cont.Idle? && conn.open && conn.read < |conn.sent| && conn.sent[conn.read] == Started(e)
    ensures TaskIn(core.(rows := RowStarted(core.rows, e)), runs,
                   conn.(read := conn.read + 1, cont := IndexStarted(e)), p, e.task)
  {
    hide Marks, PlaceOk, Exits, Shape, Delivered, Legal, StatusOk, IndexOk;
    var conn' := conn.(read := conn.read + 1, cont := IndexStarted(e));
    ShapeKept(conn, conn', e.task);
    ShapeIsLegal(conn, e.task);
    StartedStatus(conn, core.rows[e.task].status, e);
    StartedIndex(core.nodes, conn, p, core.rows[e.task].status, e);
  }

  lemma ExitedSubject(core: Core, runs: map<nat, Run>, conn: Conn, p: Cluster.Place, e: TaskExited)
    requires TaskIn(core, runs, conn, p, e.task)
    requires conn.cont.Idle? && conn.open && conn.read < |conn.sent| && conn.sent[conn.read] == Exited(e)
    ensures TaskIn(core.(rows := RowExited(core.rows, e)), runs,
                   conn.(read := conn.read + 1, cont := UnindexExited(e)), p, e.task)
    ensures core.rows[e.task].status.Running?
  {
    hide Marks, PlaceOk, Exits, Shape, Delivered, Legal, StatusOk, IndexOk;
    var conn' := conn.(read := conn.read + 1, cont := UnindexExited(e));
    ShapeKept(conn, conn', e.task);
    ShapeIsLegal(conn, e.task);
    ExitedStatus(conn, core.rows[e.task].status, e);
    ExitedIndex(core.nodes, conn, p, core.rows[e.task].status, e);
  }

  /** An error for a task that is still indexed finds it queued; any other finds it finished. */
  lemma ErrorSubject(core: Core, runs: map<nat, Run>, conn: Conn, p: Cluster.Place, t: TaskId, error: WorkerError)
    requires TaskIn(core, runs, conn, p, t) && error.task == Some(t) && error.node == Some(p.node)
    requires conn.cont.Idle? && conn.open && conn.read < |conn.sent| && conn.sent[conn.read] == Error(error)
    ensures p.node in core.nodes && t in core.nodes[p.node].running ==>
              core.rows[t].status.Queued? && core.nodes[p.node].running[t] == p.job && AtHome(core.nodes, p, t)
    ensures var heard := Marks(conn.sent[..conn.read + 1], t);
      if p.node in core.nodes && t in core.nodes[p.node].running then Complete(heard)
      else heard != [] && heard != [Begun] && !Unfinished(core.rows[t].status)
  {
    NextMark(conn.sent, conn.read, t);
    hide PlaceOk, Exits, LiveOk, LogsAfterStart;
  }

  /** The error ends the task: it leaves the index, and its exit is to be recorded. */
  lemma ErrorEnds(
      core: Core, runs: map<nat, Run>, conn: Conn, p: Cluster.Place, t: TaskId, exit: TaskExited, error: WorkerError)
    requires TaskIn(core, runs, conn, p, t) && ReadsNow(conn, Error(error)) && AtHome(core.nodes, p, t)
    requires core.rows[t].status.Queued? && Complete(Marks(conn.sent[..conn.read + 1], t)) && exit.task == t
    ensures TaskIn(core.(nodes := Unindex(core.nodes, p.node, t)), runs,
                   conn.(read := conn.read + 1, cont := RecordExit(exit, CoordinatorCore.Report(error))), p, t)
  {
    hide Marks, PlaceOk, Exits, Shape, Delivered, Complete;
    ShapeKept(conn, conn.(read := conn.read + 1, cont := RecordExit(exit, CoordinatorCore.Report(error))), t);
  }

  /** The task has ended before, and the error only goes out. */
  lemma ErrorPasses(
      core: Core, runs: map<nat, Run>, conn: Conn, p: Cluster.Place, t: TaskId, error: WorkerError)
    requires TaskIn(core, runs, conn, p, t) && ReadsNow(conn, Error(error)) && !Unfinished(core.rows[t].status)
    requires var heard := Marks(conn.sent[..conn.read + 1], t); heard != [] && heard != [Begun]
    ensures TaskIn(core, runs, conn.(read := conn.read + 1, cont := SendLast(ErrorEvent(error))), p, t)
  {
    hide Marks, PlaceOk, Exits, Shape, Delivered, OnlyAt, AtHome;
    ShapeKept(conn, conn.(read := conn.read + 1, cont := SendLast(ErrorEvent(error))), t);
  }

  lemma ErrorTaken(
      core: Core, runs: map<nat, Run>, conn: Conn, p: Cluster.Place, t: TaskId, error: WorkerError, now: Protocol.Time)
    requires TaskIn(core, runs, conn, p, t) && error.task == Some(t) && error.node == Some(p.node)
    requires conn.cont.Idle? && conn.open && conn.read < |conn.sent| && conn.sent[conn.read] == Error(error)
    ensures var (core', cont') := Read(core, Error(error), now);
      TaskIn(core', runs, conn.(read := conn.read + 1, cont := cont'), p, t)
  {
    hide TaskIn, Marks, Complete, Unindex, AtHome;
    ErrorSubject(core, runs, conn, p, t, error);
    if p.node in core.nodes && t in core.nodes[p.node].running {
      ErrorEnds(core, runs, conn, p, t, FailedExit(core.nodes[p.node].running[t], t, p.node, now), error);
    } else {
      ErrorPasses(core, runs, conn, p, t, error);
    }
  }

  lemma UnindexOthers(core: Core, node: NodeId, task: TaskId, t: TaskId)
    requires t != task && t in core.rows
    ensures SameFor(core, core.(nodes := Unindex(core.nodes, node, task)), t)
  {
  }

  /** The message at hand is about the task `t`. */
  predicate Regards(message: WorkerMessage, t: TaskId) {
    match message
    case Heartbeat(_, _) => false
    case Started(e) => e.task == t
    case Log(_) => false
    case Exited(e) => e.task == t
    case Error(e) => e.task == Some(t)
  }

  lemma ReadOthers(core: Core, message: WorkerMessage, now: Protocol.Time, t: TaskId)
    requires t in core.rows && !Regards(message, t)
    requires message.Error? ==> message.error.task.Some?
    ensures var (core', cont') := Read(core, message, now);
      SameFor(core, core', t) && !Unrecorded(cont', t) && !Unsent(cont', t)
    ensures MarkOf(message, t) == []
  {
    if message.Error? && message.error.node.Some? {
      UnindexOthers(core, message.error.node.value, message.error.task.value, t);
    }
  }

  lemma ReadSubject(core: Core, runs: map<nat, Run>, conn: Conn, p: Cluster.Place, now: Protocol.Time, t: TaskId)
    requires TaskIn(core, runs, conn, p, t)
    requires conn.cont.Idle? && conn.open && conn.read < |conn.sent| && Regards(conn.sent[conn.read], t)
    requires conn.sent[conn.read].Error? ==> conn.sent[conn.read].error.node == Some(p.node)
    ensures var (core', cont') := Read(core, conn.sent[conn.read], now);
      TaskIn(core', runs, conn.(read := conn.read + 1, cont := cont'), p, t)
  {
    hide TaskIn;
    match conn.sent[conn.read]
    case Started(e) => StartedSubject(core, runs, conn, p, e);
    case Exited(e) => ExitedSubject(core, runs, conn, p, e);
    case Error(e) => ErrorTaken(core, runs, conn, p, t, e, now);
  }

  lemma RowOfTask(s: Sys, t: TaskId)
    requires TaskOk(s, t)
    ensures t in s.core.rows
  {
  }

  lemma ReadMoves(s: Sys, c: nat, now: Protocol.Time, t: TaskId)
    requires CanRead(s, c) && TaskOk(s, t) && MessageOk(s.placed, c, s.conns[c].sent[s.conns[c].read])
    ensures var conn := s.conns[c];
      var (core', cont') := Read(s.core, conn.sent[conn.read], now);
      if s.placed[t].conn == c then TaskIn(core', s.runs, conn.(read := conn.read + 1, cont := cont'), s.placed[t], t)
      else SameFor(s.core, core', t)
  {
    RowOfTask(s, t);
    hide TaskIn, SameFor, Marks;
    var conn, p := s.conns[c], s.placed[t];
    var message := conn.sent[conn.read];
    var (core', cont') := Read(s.core, message, now);
    if Regards(message, t) {
      ReadSubject(s.core, s.runs, conn, p, now, t);
    } else {
      ReadOthers(s.core, message, now, t);
      if p.conn == c {
        ReadBystander(s.core, core', s.runs, conn, conn.(read := conn.read + 1, cont := cont'), p, t);
      }
    }
  }

  lemma ReadKeepsConn(s: Sys, c: nat, now: Protocol.Time)
    requires CanRead(s, c) && ConnOk(s.placed, s.core, c, s.conns[c])
    requires MessageOk(s.placed, c, s.conns[c].sent[s.conns[c].read])
    requires forall t :: t in s.placed ==> TaskOk(s, t)
    ensures var conn := s.conns[c];
      var (core', cont') := Read(s.core, conn.sent[conn.read], now);
      ConnOk(s.placed, core', c, conn.(read := conn.read + 1, cont := cont'))
  {
    hide SentOk, InboxOk, TasksOk, TaskIn;
    var conn := s.conns[c];
    match conn.sent[conn.read]
    case Error(e) =>
      assert TaskOk(s, e.task.value);
      ErrorSubject(s.core, s.runs, conn, s.placed[e.task.value], e.task.value, e);
    case _ =>
  }

  lemma UnindexShrinks(nodes: map<NodeId, Handle>, node: NodeId, task: TaskId, c: nat)
    ensures NodesShrink(nodes, Unindex(nodes, node, task), c)
  {
  }

  lemma SameNodesShrink(nodes: map<NodeId, Handle>, c: nat)
    ensures NodesShrink(nodes, nodes, c)
  {
  }

  lemma RecordingKeepsRows(rows: Rows, task: TaskId)
    requires task in rows
    ensures forall e: TaskStarted :: e.task == task ==> RowsKept(rows, RowStarted(rows, e))
    ensures forall e: TaskExited :: e.task == task ==> RowsKept(rows, RowExited(rows, e))
  {
  }

  lemma ReadIsLocal(s: Sys, c: nat, now: Protocol.Time)
    requires CanRead(s, c) && MessageOk(s.placed, c, s.conns[c].sent[s.conns[c].read])
    requires forall t :: t in s.placed ==> t in s.core.rows
    ensures var core' := Read(s.core, s.conns[c].sent[s.conns[c].read], now).0;
      && NodesShrink(s.core.nodes, core'.nodes, c)
      && RowsKept(s.core.rows, core'.rows) && core'.events == s.core.events
      && (forall t :: t in s.core.rows && t !in s.placed ==> core'.rows[t] == s.core.rows[t])
  {
    SameNodesShrink(s.core.nodes, c);
    var message := s.conns[c].sent[s.conns[c].read];
    match message
    case Started(e) => RecordingKeepsRows(s.core.rows, e.task); hide NodesShrink, RowsKept;
    case Exited(e) => RecordingKeepsRows(s.core.rows, e.task); hide NodesShrink, RowsKept;
    case Error(e) => UnindexShrinks(s.core.nodes, e.node.value, e.task.value, c); hide NodesShrink, Unindex;
    case _ => hide NodesShrink;
  }

  lemma AboutAll(s: Sys)
    requires Life(s)
    ensures forall t :: t in s.placed ==> TaskOk(s, t)
    ensures forall t :: t in s.placed ==> t in s.core.rows
  {
    forall t | t in s.placed ensures TaskOk(s, t) && t in s.core.rows {
      AboutTask(s, t);
      RowOfTask(s, t);
    }
  }

  lemma AboutNext(s: Sys, c: nat)
    requires Life(s) && CanRead(s, c)
    ensures ConnOk(s.placed, s.core, c, s.conns[c])
    ensures MessageOk(s.placed, c, s.conns[c].sent[s.conns[c].read])
    ensures forall t :: t in s.placed ==> TaskOk(s, t)
    ensures forall t :: t in s.placed ==> t in s.core.rows
  {
    AboutAll(s);
    hide TaskOk, RunOk;
    assert ConnOk(s.placed, s.core, c, s.conns[c]);
  }

  lemma ReadMessageKeeps(s: Sys, c: nat, now: Protocol.Time)
    requires Life(s) && CanRead(s, c)
    ensures Life(DoRead(s, c, now))
  {
    hide Life, TaskIn, SameFor, TaskOk, ConnOk, MessageOk, NodesShrink, RowsKept, Read;
    AboutNext(s, c);
    var conn := s.conns[c];
    var (core', cont') := Read(s.core, conn.sent[conn.read], now);
    forall t | t in s.placed
      ensures if s.placed[t].conn == c
              then TaskIn(core', s.runs, conn.(read := conn.read + 1, cont := cont'), s.placed[t], t)
              else SameFor(s.core, core', t)
    {
      ReadMoves(s, c, now, t);
    }
    ReadKeepsConn(s, c, now);
    ReadIsLocal(s, c, now);
    CoreStepKeeps(s, c, core', conn.(read := conn.read + 1, cont := cont'));
  }

  // ---- The next section of a handler ----

  /** The task whose exit the section moves on. */
  predicate Moves(cont: Cont, t: TaskId) {
    match cont
    case IndexStarted(e) => e.task == t
    case UnindexExited(e) => e.task == t
    case RecordExit(e, _) => e.task == t
    case SendExit(e, _) => e.task == t
    case _ => false
  }

  lemma EventOthers(core: Core, event: CoordinatorEvent, t: TaskId)
    requires t in core.rows && (event.ExitedEvent? ==> event.exited.task != t)
    ensures SameFor(core, core.(events := core.events + [event]), t)
  {
    ExitsOfMore(core.events, event, t);
  }

  lemma IndexOthers(core: Core, node: NodeId, task: TaskId, job: JobId, t: TaskId)
    requires t != task && t in core.rows
    ensures SameFor(core, core.(nodes := Index(core.nodes, node, task, job)), t)
  {
  }

  lemma AdvanceOthers(core: Core, cont: Cont, now: Protocol.Time, t: TaskId)
    requires t in core.rows && !Moves(cont, t) && !cont.Idle?
    requires cont.SendLast? ==> !cont.event.ExitedEvent?
    ensures var (core', cont') := Advance(core, cont, now);
      && SameFor(core, core', t)
      && Unrecorded(cont', t) == Unrecorded(cont, t)
      && !Unsent(cont', t) && !Unsent(cont, t)
  {
    match cont
    case IndexStarted(e) => IndexOthers(core, e.node, e.task, e.job, t); hide SameFor, Index;
    case UnindexExited(e) => UnindexOthers(core, e.node, e.task, t); hide SameFor, Unindex;
    case RecordExit(e, _) => hide Unindex;
    case SendExit(e, _) => EventOthers(core, ExitedEvent(e), t); hide SameFor;
    case SendLast(event) => EventOthers(core, event, t); hide SameFor;
    case LogLost(node, rest) => if rest != [] { ListsTail(rest, t); } hide Lists;
    case SendLostLog(node, rest, line) => EventOthers(core, LogEvent(line), t); hide SameFor;
    case Gone =>
  }

  lemma AdvanceBystander(core: Core, runs: map<nat, Run>, conn: Conn, p: Cluster.Place, now: Protocol.Time, t: TaskId)
    requires TaskIn(core, runs, conn, p, t) && !Moves(conn.cont, t) && !conn.cont.Idle? && conn.read <= |conn.sent|
    requires conn.cont.SendLast? ==> !conn.cont.event.ExitedEvent?
    ensures var (core', cont') := Advance(core, conn.cont, now); TaskIn(core', runs, conn.(cont := cont'), p, t)
  {
    AdvanceOthers(core, conn.cont, now, t);
    hide Advance, Marks, Unrecorded, SameFor;
    var (core', cont') := Advance(core, conn.cont, now);
    BystanderKept(core, core', runs, conn, conn.(cont := cont'), p, t);
  }

  /** Indexing a running task that is already indexed changes nothing. */
  lemma IndexAgain(core: Core, runs: map<nat, Run>, conn: Conn, p: Cluster.Place, e: TaskStarted)
    requires TaskIn(core, runs, conn, p, e.task) && conn.open && conn.cont == IndexStarted(e)
    requires core.rows[e.task].status.Running? && e.job == p.job && e.node == p.node
    ensures Index(core.nodes, e.node, e.task, e.job) == core.nodes
  {
    hide Shape, StatusOk, Delivered, EventsOk;
    assert AtHome(core.nodes, p, e.task);
    assert core.nodes[e.node].running[e.task := e.job] == core.nodes[e.node].running;
  }

  lemma AdvanceUnindex(core: Core, runs: map<nat, Run>, conn: Conn, p: Cluster.Place, e: TaskExited)
    requires TaskIn(core, runs, conn, p, e.task) && conn.cont == UnindexExited(e) && conn.open && e.node == p.node
    requires RowSays(core.rows, e)
    ensures TaskIn(core.(nodes := Unindex(core.nodes, e.node, e.task)), runs,
                   conn.(cont := SendExit(e, Return)), p, e.task)
  {
    var conn' := conn.(cont := SendExit(e, Return));
    assert Shape(conn', e.task) by { hide StatusOk, IndexOk, EventsOk, Unindex; }
    hide Shape, PlaceOk, Marks;
    assert StatusOk(conn', core.rows[e.task].status, e.task) by { hide IndexOk, EventsOk, Unindex; }
    hide StatusOk;
  }

  lemma AdvanceRecord(core: Core, runs: map<nat, Run>, conn: Conn, p: Cluster.Place, e: TaskExited, then_: Then)
    requires TaskIn(core, runs, conn, p, e.task) && conn.cont == RecordExit(e, then_)
    requires then_.Return? || then_.Report? ==> conn.open
    requires then_.NextLost? ==> !conn.open && !Lists(then_.rest, e.task)
    ensures TaskIn(core.(rows := RowExited(core.rows, e)), runs, conn.(cont := SendExit(e, then_)), p, e.task)
  {
    var conn' := conn.(cont := SendExit(e, then_));
    assert Shape(conn', e.task) by { hide StatusOk, IndexOk, EventsOk; }
    hide Shape, PlaceOk, Marks;
    assert StatusOk(conn', StatusOf(e), e.task) by { hide IndexOk, EventsOk; }
    hide StatusOk;
  }

  lemma AdvanceSend(core: Core, runs: map<nat, Run>, conn: Conn, p: Cluster.Place, e: TaskExited, then_: Then)
    requires TaskIn(core, runs, conn, p, e.task) && conn.cont == SendExit(e, then_)
    requires e.job == p.job && e.node == p.node && RowSays(core.rows, e)
    ensures TaskIn(core.(events := core.events + [ExitedEvent(e)]), runs, conn.(cont := Resume(then_)), p, e.task)
  {
    var conn' := conn.(cont := Resume(then_));
    ShapeKept(conn, conn', e.task);
    hide Shape, PlaceOk, Delivered, Marks;
    assert StatusOk(conn', core.rows[e.task].status, e.task) by { hide IndexOk, EventsOk; }
    assert IndexOk(core.nodes, conn', p, core.rows[e.task].status, e.task) by { hide EventsOk; }
    hide StatusOk, IndexOk;
    ExitsOfMore(core.events, ExitedEvent(e), e.task);
    hide Exits;
  }

  lemma AdvanceSubject(
      core: Core, runs: map<nat, Run>, conn: Conn, p: Cluster.Place, now: Protocol.Time, t: TaskId,
      placed: Placed, c: nat)
    requires TaskIn(core, runs, conn, p, t) && Moves(conn.cont, t)
    requires ContOk(placed, core.rows, c, conn) && t in placed && placed[t] == p
    ensures var (core', cont') := Advance(core, conn.cont, now); TaskIn(core', runs, conn.(cont := cont'), p, t)
  {
    match conn.cont
    case IndexStarted(e) =>
      IndexAgain(core, runs, conn, p, e);
      SameForSelf(core, runs, conn, p, t);
      BystanderKept(core, core, runs, conn, conn.(cont := SendLast(StartedEvent(e))), p, t);
    case UnindexExited(e) => AdvanceUnindex(core, runs, conn, p, e);
    case RecordExit(e, then_) => AdvanceRecord(core, runs, conn, p, e, then_);
    case SendExit(e, then_) => AdvanceSend(core, runs, conn, p, e, then_);
  }

  lemma SameForSelf(core: Core, runs: map<nat, Run>, conn: Conn, p: Cluster.Place, t: TaskId)
    requires TaskIn(core, runs, conn, p, t)
    ensures SameFor(core, core, t) && conn.read <= |conn.sent|
  {
  }

  lemma AdvanceMoves(s: Sys, c: nat, now: Protocol.Time, t: TaskId)
    requires CanContinue(s, c) && TaskOk(s, t) && ConnOk(s.placed, s.core, c, s.conns[c])
    ensures var conn := s.conns[c];
      var (core', cont') := Advance(s.core, conn.cont, now);
      if s.placed[t].conn == c then TaskIn(core', s.runs, conn.(cont := cont'), s.placed[t], t)
      else SameFor(s.core, core', t)
  {
    RowOfTask(s, t);
    var conn, p := s.conns[c], s.placed[t];
    assert ContOk(s.placed, s.core.rows, c, conn);
    assert Moves(conn.cont, t) ==> p.conn == c;
    hide TaskIn, SameFor, SentOk, InboxOk, TasksOk, Advance;
    if Moves(conn.cont, t) {
      AdvanceSubject(s.core, s.runs, conn, p, now, t, s.placed, c);
    } else if p.conn == c {
      AdvanceBystander(s.core, s.runs, conn, p, now, t);
    } else {
      AdvanceOthers(s.core, conn.cont, now, t);
    }
  }

  lemma RestShrinks(placed: Placed, c: nat, node: NodeId, rest: seq<(TaskId, JobId)>)
    requires rest != [] && RestOk(placed, c, node, rest)
    ensures RestOk(placed, c, node, rest[1..]) && !Lists(rest[1..], rest[0].0)
    ensures Owns(placed, c, rest[0].1, rest[0].0, node)
  {
  }

  lemma AdvanceKeepsConn(s: Sys, c: nat, now: Protocol.Time)
    requires CanContinue(s, c) && ContOk(s.placed, s.core.rows, c, s.conns[c])
    ensures var (core', cont') := Advance(s.core, s.conns[c].cont, now);
      ContOk(s.placed, core'.rows, c, s.conns[c].(cont := cont'))
  {
    hide SentOk, InboxOk, TasksOk;
    var conn := s.conns[c];
    match conn.cont
    case LogLost(node, rest) => if rest != [] { RestShrinks(s.placed, c, node, rest); } hide RestOk, Lists;
    case _ => hide RestOk, Lists;
  }

  lemma AdvanceNodes(s: Sys, c: nat, now: Protocol.Time)
    requires CanContinue(s, c) && ConnOk(s.placed, s.core, c, s.conns[c])
    requires forall t :: t in s.placed ==> TaskOk(s, t)
    ensures var core' := Advance(s.core, s.conns[c].cont, now).0;
      && NodesShrink(s.core.nodes, core'.nodes, c)
      && (s.conns[c].open ==> s.conns[c].node in core'.nodes && core'.nodes[s.conns[c].node].conn == c)
  {
    hide SentOk, InboxOk, TasksOk, TaskIn;
    SameNodesShrink(s.core.nodes, c);
    var conn := s.conns[c];
    match conn.cont
    case IndexStarted(e) =>
      assert TaskOk(s, e.task);
      IndexAgain(s.core, s.runs, conn, s.placed[e.task], e);
      hide NodesShrink;
    case UnindexExited(e) => UnindexShrinks(s.core.nodes, e.node, e.task, c); hide NodesShrink;
    case _ => hide NodesShrink;
  }

  lemma AdvanceIsLocal(s: Sys, c: nat, now: Protocol.Time)
    requires CanContinue(s, c) && ContOk(s.placed, s.core.rows, c, s.conns[c])
    requires forall t :: t in s.placed ==> t in s.core.rows
    ensures var core' := Advance(s.core, s.conns[c].cont, now).0;
      && RowsKept(s.core.rows, core'.rows) && EventsGrowBy(s.core.events, core'.events, s.placed)
      && (forall t :: t in s.core.rows && t !in s.placed ==> core'.rows[t] == s.core.rows[t])
  {
    hide SentOk, InboxOk, TasksOk, RestOk, Lists;
    match s.conns[c].cont
    case RecordExit(e, _) => RecordingKeepsRows(s.core.rows, e.task); hide RowsKept;
    case _ =>
  }

  lemma AdvanceKeeps(s: Sys, c: nat, now: Protocol.Time)
    requires Life(s) && CanContinue(s, c)
    ensures Life(DoContinue(s, c, now))
  {
    hide Life, TaskIn, SameFor, TaskOk, NodesShrink, RowsKept, Advance, ContOk, EventsGrowBy, SentOk, InboxOk, TasksOk;
    AboutConn(s, c);
    AboutAll(s);
    var conn := s.conns[c];
    var (core', cont') := Advance(s.core, conn.cont, now);
    forall t | t in s.placed
      ensures if s.placed[t].conn == c then TaskIn(core', s.runs, conn.(cont := cont'), s.placed[t], t)
              else SameFor(s.core, core', t)
    {
      AdvanceMoves(s, c, now, t);
    }
    AdvanceKeepsConn(s, c, now);
    AdvanceNodes(s, c, now);
    AdvanceIsLocal(s, c, now);
    ClosedHasNoNode(s, c, core'.nodes);
    CoreStepKeeps(s, c, core', conn.(cont := cont'));
  }

  lemma ClosedHasNoNode(s: Sys, c: nat, nodes': map<NodeId, Handle>)
    requires Life(s) && c in s.conns && NodesShrink(s.core.nodes, nodes', c)
    ensures s.conns[c].open || forall n :: n in nodes' ==> nodes'[n].conn != c
  {
    hide ConnsOk, AllTasksOk, RunsOk, KillsOk, HistoryOk;
    forall n | n in nodes' && !s.conns[c].open ensures nodes'[n].conn != c {
      assert NodeOk(s.placed, s.conns, n, s.core.nodes[n]);
    }
  }

  // ---- The stream ends ----

  lemma LostTask(
      core: Core, runs: map<nat, Run>, conn: Conn, p: Cluster.Place, t: TaskId, c: nat, order: seq<(TaskId, JobId)>)
    requires TaskIn(core, runs, conn, p, t) && p.conn == c && conn.cont.Idle? && conn.open
    requires conn.node in core.nodes && core.nodes[conn.node].conn == c
    requires Enumerates(order, core.nodes[conn.node].running)
    ensures TaskIn(core.(nodes := core.nodes - {conn.node}), runs,
                   conn.(cont := LogLost(conn.node, order), open := false, reading := false), p, t)
  {
    var conn' := conn.(cont := LogLost(conn.node, order), open := false, reading := false);
    var nodes' := core.nodes - {conn.node};
    assert Shape(conn', t) by { hide StatusOk, IndexOk, EventsOk; }
    hide Shape, PlaceOk, Marks, Exits;
    assert Lists(order, t) <==> t in core.nodes[conn.node].running;
    assert AtHome(core.nodes, p, t) <==> Lists(order, t);
    assert !AtHome(nodes', p, t) && OnlyAt(nodes', p, t);
  }

  lemma OtherNodeKept(core: Core, p: Cluster.Place, c: nat, n: NodeId, t: TaskId)
    requires t in core.rows && OnlyAt(core.nodes, p, t) && p.conn != c && n in core.nodes && core.nodes[n].conn == c
    ensures SameFor(core, core.(nodes := core.nodes - {n}), t)
  {
  }

  lemma LostRest(s: Sys, c: nat, order: seq<(TaskId, JobId)>)
    requires Life(s) && CanDisconnect(s, c, order)
    ensures RestOk(s.placed, c, s.conns[c].node, order)
  {
    hide Life;
    AboutConn(s, c);
    var node := s.conns[c].node;
    forall i | 0 <= i < |order| ensures Owns(s.placed, c, order[i].1, order[i].0, node) {
      AboutIndexed(s, node, order[i].0);
    }
  }

  lemma AboutIndexed(s: Sys, n: NodeId, t: TaskId)
    requires Life(s) && n in s.core.nodes && t in s.core.nodes[n].running
    ensures Owns(s.placed, s.core.nodes[n].conn, s.core.nodes[n].running[t], t, n)
  {
    assert t in s.placed by {
      hide ConnsOk, AllTasksOk, RunsOk, KillsOk, HistoryOk;
      assert NodeOk(s.placed, s.conns, n, s.core.nodes[n]);
    }
    AboutTask(s, t);
    hide Life, Delivered, Shape, StatusOk, EventsOk, PlaceOk;
  }

  lemma LostKeeps(s: Sys, c: nat, order: seq<(TaskId, JobId)>)
    requires Life(s) && CanDisconnect(s, c, order)
    ensures Life(DoDisconnect(s, c, order))
  {
    hide Life, SameFor, NodesShrink, RowsKept, RestOk, SentOk, InboxOk, TasksOk, Enumerates;
    AboutConn(s, c);
    AboutAll(s);
    LostRest(s, c, order);
    var conn := s.conns[c];
    var core' := s.core.(nodes := s.core.nodes - {conn.node});
    var conn' := conn.(cont := LogLost(conn.node, order), open := false, reading := false);
    forall t | t in s.placed
      ensures if s.placed[t].conn == c then TaskIn(core', s.runs, conn', s.placed[t], t) else SameFor(s.core, core', t)
    {
      if s.placed[t].conn == c {
        LostTask(s.core, s.runs, conn, s.placed[t], t, c, order) by { hide TaskIn; }
      } else {
        assert OnlyAt(s.core.nodes, s.placed[t], t) by { hide Delivered, Shape, StatusOk, EventsOk, PlaceOk; }
        OtherNodeKept(s.core, s.placed[t], c, conn.node, t);
      }
    }
    hide TaskIn, TaskOk;
    DropShrinks(s.core.nodes, conn.node, c);
    OnlyNodeOf(s, c);
    RowsKeptSelf(s.core.rows);
    CoreStepKeeps(s, c, core', conn');
  }

  lemma RowsKeptSelf(rows: Rows)
    ensures RowsKept(rows, rows)
  {
  }

  lemma DropShrinks(nodes: map<NodeId, Handle>, n: NodeId, c: nat)
    requires n in nodes && nodes[n].conn == c
    ensures NodesShrink(nodes, nodes - {n}, c)
  {
  }

  lemma OnlyNodeOf(s: Sys, c: nat)
    requires Life(s) && c in s.conns
    ensures forall n :: n in s.core.nodes && s.core.nodes[n].conn == c ==> n == s.conns[c].node
  {
    hide ConnsOk, AllTasksOk, RunsOk, KillsOk, HistoryOk;
    forall n | n in s.core.nodes && s.core.nodes[n].conn == c ensures n == s.conns[c].node {
      assert NodeOk(s.placed, s.conns, n, s.core.nodes[n]);
    }
  }

  // ---- Registration ----

  lemma RegisterKeepsConn(s: Sys, c: nat, n: NodeId, policy: PolicyConfig, d: nat)
    requires Life(s) && c !in s.conns && n !in s.core.nodes && d in DoRegister(s, c, n, policy).conns
    ensures var s' := DoRegister(s, c, n, policy); ConnOk(s'.placed, s'.core, d, s'.conns[d])
  {
    hide Life, SentOk, InboxOk, TasksOk;
    if d == c {
      EmptyOk(s.placed, c);
    } else {
      AboutConn(s, d);
    }
  }

  lemma RegisterKeepsTask(s: Sys, c: nat, n: NodeId, policy: PolicyConfig, t: TaskId)
    requires c !in s.conns && n !in s.core.nodes && TaskOk(s, t)
    ensures TaskOk(DoRegister(s, c, n, policy), t)
  {
    RowOfTask(s, t);
    RegisterSame(s, c, n, t);
    hide SameFor, TaskIn;
    TaskKept(s.core, DoRegister(s, c, n, policy).core, s.runs, s.conns[s.placed[t].conn], s.placed[t], t);
  }

  lemma RegisterKeepsLife(s: Sys, c: nat, n: NodeId, policy: PolicyConfig)
    requires Life(s) && c !in s.conns && n !in s.core.nodes
    ensures Life(DoRegister(s, c, n, policy))
  {
    hide Life, TaskOk, ConnOk, NodesOk, HistoryOk, RunsOk, KillsOk;
    var s' := DoRegister(s, c, n, policy);
    forall d | d in s'.conns ensures ConnOk(s'.placed, s'.core, d, s'.conns[d]) {
      RegisterKeepsConn(s, c, n, policy, d);
    }
    forall t | t in s'.placed ensures TaskOk(s', t) {
      AboutTask(s, t);
      RegisterKeepsTask(s, c, n, policy, t);
    }
    RegisterRest(s, c, n, policy);
    MakeLife(s');
  }

  lemma EmptyOk(placed: Placed, c: nat)
    ensures SentOk(placed, c, []) && InboxOk(placed, c, []) && TasksOk(placed, c, map[])
  {
  }

  lemma RegisterSame(s: Sys, c: nat, n: NodeId, t: TaskId)
    requires n !in s.core.nodes && t in s.core.rows
    ensures SameFor(s.core, s.core.(nodes := s.core.nodes[n := Handle(c, map[])]), t)
  {
  }

  lemma RegisterRest(s: Sys, c: nat, n: NodeId, policy: PolicyConfig)
    requires Life(s) && c !in s.conns && n !in s.core.nodes
    ensures var s' := DoRegister(s, c, n, policy);
      NodesOk(s') && HistoryOk(s'.placed, s'.core) && RunsOk(s') && KillsOk(s')
  {
    hide ConnsOk, AllTasksOk, TaskOk, KillOk, DispatchesOk, JobOwned;
    var s' := DoRegister(s, c, n, policy);
    forall m | m in s'.core.nodes ensures NodeOk(s'.placed, s'.conns, m, s'.core.nodes[m]) {
      if m != n { assert NodeOk(s.placed, s.conns, m, s.core.nodes[m]); }
    }
  }

  lemma LeaveKeeps(s: Sys, c: nat)
    requires Life(s) && CanLeave(s, c)
    ensures Life(DoReadError(s, c))
  {
    hide Life;
    var conn' := s.conns[c].(reading := false);
    AboutConn(s, c);
    forall t | t in s.placed && s.placed[t].conn == c ensures EndTask(s, conn', t) {
      hide ConnOk;
      AboutTask(s, t);
    }
    EndKeepsLife(s, c, conn');
  }

  lemma WireKeepsLife(s: Sys, step: WireStep, s': Sys)
    requires Life(s) && NextWire(s, step, s') && Honest(s, Wire(step))
    ensures Life(s')
  {
    hide Life;
    match step
    case Register(c, n, policy) => RegisterKeepsLife(s, c, n, policy);
    case ReadMessage(c, now) => ReadMessageKeeps(s, c, now);
    case Continue(c, now) => AdvanceKeeps(s, c, now);
    case ReadError(c) => LeaveKeeps(s, c);
    case Disconnect(c, order) => LostKeeps(s, c, order);
  }
}
