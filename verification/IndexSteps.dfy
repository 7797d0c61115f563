/** Every step of the system keeps the index and the table in step. */
module IndexSteps {
  import opened Protocol
  import opened JobStore
  import opened CoordinatorCore
  import opened Cluster
  import opened WakeUp
  import opened Lifecycle
  import opened CoordinatorSteps
  import opened DispatchSteps
  import opened IndexInvariant
  import opened Policy

  // ---- The worker end ----

  /** A step at the worker end touches neither index, table nor handler. */
  lemma EndMoves(s: Sys, c: nat, conn': Conn)
    requires Tracked(s) && c in s.conns
    requires var conn := s.conns[c];
      conn'.node == conn.node && conn'.cont == conn.cont && conn'.open == conn.open
    requires EchoedOnly(s.placed, c, conn'.sent) && InboxOk(s.placed, c, conn'.inbox)
      && TasksOk(s.placed, c, conn'.tasks)
    ensures Tracked(WithConn(s, c, conn'))
  {
    hide Tracked, HistoryOk, Unrecorded, OnlyAt, AtHome, EchoedOnly, InboxOk, TasksOk, KillsOk;
    TrackedParts(s);
    AboutLink(s, c);
    forall n | n in s.core.nodes ensures NodeOk(s.placed, s.conns[c := conn'], n, s.core.nodes[n]) {
      assert NodeOk(s.placed, s.conns, n, s.core.nodes[n]);
    }
    forall t | t in s.placed
      ensures if s.placed[t].conn == c then Located(s.core, conn', s.placed[t], t) else SameSpot(s.core, s.core, t)
    {
      AboutLocated(s, t);
    }
    assert WithConn(s, c, conn').(core := s.core) == WithConn(s, c, conn');
    ConnMoves(s, c, s.core, conn');
  }

  lemma SaysMore(s: Sys, c: nat, out: seq<WorkerMessage>)
    requires Tracked(s) && c in s.conns && EchoedOnly(s.placed, c, out)
    ensures EchoedOnly(s.placed, c, s.conns[c].sent + out)
    ensures InboxOk(s.placed, c, s.conns[c].inbox) && TasksOk(s.placed, c, s.conns[c].tasks)
  {
    hide Tracked, InboxOk, TasksOk;
    AboutLink(s, c);
  }

  lemma TaskMoves(s: Sys, c: nat, t: TaskId, task': WorkerTask, out: seq<WorkerMessage>)
    requires Tracked(s) && c in s.conns && EchoedOnly(s.placed, c, out) && WorkerTaskOk(s.placed, c, t, task')
    ensures Tracked(WithTask(s, c, t, task', out))
  {
    hide Tracked, EchoedOnly, WorkerTaskOk, InboxOk;
    SaysMore(s, c, out);
    var conn := s.conns[c];
    EndMoves(s, c, conn.(tasks := conn.tasks[t := task'], sent := conn.sent + out));
  }

  lemma AboutWork(s: Sys, c: nat, t: TaskId)
    requires Tracked(s) && c in s.conns && t in s.conns[c].tasks
    ensures WorkerTaskOk(s.placed, c, t, s.conns[c].tasks[t])
  {
    hide Tracked, EchoedOnly, InboxOk, WorkerTaskOk;
    AboutLink(s, c);
  }

  lemma AboutMail(s: Sys, c: nat)
    requires Tracked(s) && HasMail(s, c)
    ensures MailOk(s.placed, c, Mail(s, c))
    ensures Mail(s, c).KillTask? ==> s.placed[Mail(s, c).task].node == s.conns[c].node
  {
    hide Tracked, EchoedOnly, TasksOk, Unrecorded, OnlyAt, AtHome;
    AboutLink(s, c);
    assert MailOk(s.placed, c, s.conns[c].inbox[s.conns[c].got]);
    if Mail(s, c).KillTask? { AboutLocated(s, Mail(s, c).task); }
  }

  lemma MailMoves(s: Sys, c: nat, step: WorkStep, s': Sys)
    requires Tracked(s) && NextWork(s, c, step, s') && (step.Receive? || step.KillSucceeds? || step.KillFails?)
    ensures Tracked(s')
  {
    hide Tracked, InboxOk;
    AboutMail(s, c);
    var conn := s.conns[c];
    SaysMore(s, c, []);
    assert conn.sent + [] == conn.sent;
    match step
    case Receive =>
      var spec := Mail(s, c).spec;
      EndMoves(s, c, conn.(got := conn.got + 1, tasks := conn.tasks[spec.task := Received(spec)]));
    case KillSucceeds => EndMoves(s, c, conn.(got := conn.got + 1));
    case KillFails(message) =>
      var report := Error(WorkerError(Some(conn.node), Some(Mail(s, c).task), message));
      SaysMore(s, c, [report]);
      EndMoves(s, c, conn.(got := conn.got + 1, sent := conn.sent + [report]));
  }

  lemma ProcessMoves(s: Sys, c: nat, step: WorkStep, s': Sys)
    requires Tracked(s) && NextWork(s, c, step, s') && (step.Spawn? || step.Output? || step.Exit?)
    ensures Tracked(s')
  {
    hide Tracked;
    AboutWork(s, c, step.task);
    var task := s.conns[c].tasks[step.task];
    var spec := task.spec;
    match step
    case Spawn(t, pid, now) =>
      TaskMoves(s, c, t, Live(spec, [Started(TaskStarted(spec.job, t, spec.node, pid, now))], 0, true), []);
    case Output(t, line) => TaskMoves(s, c, t, task.(events := task.events + [Log(line)]), []);
    case Exit(t, exitCode, success, now) =>
      var exit := Exited(TaskExited(spec.job, t, spec.node, exitCode, success, now));
      TaskMoves(s, c, t, task.(events := task.events + [exit], alive := false), []);
  }

  lemma SpeechMoves(s: Sys, c: nat, step: WorkStep, s': Sys)
    requires Tracked(s) && NextWork(s, c, step, s') && Echoing(s, Work(c, step))
    requires step.Reject? || step.Forward? || step.Forge?
    ensures Tracked(s')
  {
    hide Tracked;
    match step
    case Reject(t, message) =>
      AboutWork(s, c, t);
      var spec := s.conns[c].tasks[t].spec;
      TaskMoves(s, c, t, Rejected, [Error(WorkerError(Some(spec.node), Some(spec.task), message))]);
    case Forward(t) =>
      AboutWork(s, c, t);
      var task := s.conns[c].tasks[t];
      assert MessageOk(s.placed, c, task.events[task.forwarded]);
      TaskMoves(s, c, t, task.(forwarded := task.forwarded + 1), [task.events[task.forwarded]]);
    case Forge(forged) =>
      SaysMore(s, c, [forged]);
      EndMoves(s, c, s.conns[c].(sent := s.conns[c].sent + [forged]));
  }

  lemma WorkKeepsTracked(s: Sys, c: nat, step: WorkStep, s': Sys)
    requires Tracked(s) && NextWork(s, c, step, s') && Echoing(s, Work(c, step))
    ensures Tracked(s')
  {
    hide Tracked, NextWork;
    if step.Receive? || step.KillSucceeds? || step.KillFails? {
      MailMoves(s, c, step, s');
    } else if step.Spawn? || step.Output? || step.Exit? {
      ProcessMoves(s, c, step, s');
    } else {
      SpeechMoves(s, c, step, s');
    }
  }

  // ---- Handlers ----

  /** A task on the connection that a section is not about. */
  lemma Bystander(core: Core, core': Core, conn: Conn, conn': Conn, p: Cluster.Place, t: TaskId)
    requires Located(core, conn, p, t) && SameSpot(core, core', t)
    requires conn'.node == conn.node && conn'.open == conn.open
    requires !Moving(conn.cont, t) && !Moving(conn'.cont, t)
    requires Unrecorded(conn'.cont, t) == Unrecorded(conn.cont, t)
    ensures Located(core', conn', p, t)
  {
    hide Unrecorded, Moving;
  }

  lemma SpotOf(core: Core, core': Core, t: TaskId)
    requires SameFor(core, core', t)
    ensures SameSpot(core, core', t)
  {
  }

  /** An error about an indexed task takes it out of the index and holds it; about any other it changes nothing. */
  lemma ErrorLocated(core: Core, conn: Conn, p: Cluster.Place, t: TaskId, error: WorkerError, now: Protocol.Time)
    requires Located(core, conn, p, t) && error.task == Some(t) && error.node == Some(p.node)
    requires conn.cont.Idle? && conn.open
    ensures var (core', cont') := Read(core, Error(error), now);
      && Located(core', conn.(read := conn.read + 1, cont := cont'), p, t)
      && (cont'.RecordExit? ==> cont'.exit.job == p.job && core'.rows == core.rows)
  {
  }

  lemma ReadLocated(s: Sys, c: nat, now: Protocol.Time, t: TaskId)
    requires CanRead(s, c) && TaskLocated(s, t) && Echoes(s.placed, c, s.conns[c].sent[s.conns[c].read])
    ensures var conn := s.conns[c];
      var (core', cont') := Read(s.core, conn.sent[conn.read], now);
      if s.placed[t].conn == c then
        s.conns[c].open ==> Located(core', conn.(read := conn.read + 1, cont := cont'), s.placed[t], t)
      else SameSpot(s.core, core', t)
  {
    var conn, p := s.conns[c], s.placed[t];
    var message := conn.sent[conn.read];
    var (core', cont') := Read(s.core, message, now);
    if Regards(message, t) {
      match message
      case Error(e) => if e.node.Some? { ErrorLocated(s.core, conn, p, t, e, now); }
      case _ => hide OnlyAt, AtHome;
    } else if message.Error? && message.error.task.None? {
      hide OnlyAt, AtHome;
    } else {
      ReadOthers(s.core, message, now, t);
      SpotOf(s.core, core', t);
      hide Read, SameFor, SameSpot;
      if p.conn == c { Bystander(s.core, core', conn, conn.(read := conn.read + 1, cont := cont'), p, t); }
    }
  }

  lemma ReadLink(s: Sys, c: nat, now: Protocol.Time)
    requires Tracked(s) && CanRead(s, c)
    ensures var conn := s.conns[c];
      var (core', cont') := Read(s.core, conn.sent[conn.read], now);
      && LinkOk(s.placed, core', c, conn.(read := conn.read + 1, cont := cont'))
      && OthersStay(s.core.nodes, core'.nodes, c)
      && HistoryOk(s.placed, core')
  {
    hide Tracked, EchoedOnly, InboxOk, TasksOk;
    TrackedParts(s);
    AboutLink(s, c);
    var conn := s.conns[c];
    assert Echoes(s.placed, c, conn.sent[conn.read]) by { NextEchoes(s, c); }
    match conn.sent[conn.read]
    case Error(e) =>
      if e.node.Some? && e.task.Some? {
        AboutLocated(s, e.task.value);
        ErrorLocated(s.core, conn, s.placed[e.task.value], e.task.value, e, now);
      }
    case _ =>
  }

  lemma NextEchoes(s: Sys, c: nat)
    requires Tracked(s) && CanRead(s, c)
    ensures Echoes(s.placed, c, s.conns[c].sent[s.conns[c].read]) && s.conns[c].open
  {
    hide Tracked;
    AboutLink(s, c);
  }

  lemma ReadNodes(s: Sys, c: nat, now: Protocol.Time)
    requires NodesOk(s) && CanRead(s, c)
    ensures var conn := s.conns[c];
      var (core', cont') := Read(s.core, conn.sent[conn.read], now);
      NodesOk(WithConn(s, c, conn.(read := conn.read + 1, cont := cont')).(core := core'))
  {
    var conn := s.conns[c];
    var (core', cont') := Read(s.core, conn.sent[conn.read], now);
    SameNodesShrink(s.core.nodes, c);
    if conn.sent[conn.read].Error? && cont'.RecordExit? {
      UnindexShrinks(s.core.nodes, conn.sent[conn.read].error.node.value, conn.sent[conn.read].error.task.value, c);
    }
    hide NodesShrink;
    NodesKept(s, c, core', conn.(read := conn.read + 1, cont := cont'));
  }

  lemma ReadTracked(s: Sys, c: nat, now: Protocol.Time)
    requires Tracked(s) && CanRead(s, c)
    ensures Tracked(DoRead(s, c, now))
  {
    hide Tracked, Located, SameSpot, OthersStay, LinkOk, HistoryOk, NodesOk, Read, Echoes;
    TrackedParts(s);
    NextEchoes(s, c);
    var conn := s.conns[c];
    var (core', cont') := Read(s.core, conn.sent[conn.read], now);
    var conn' := conn.(read := conn.read + 1, cont := cont');
    forall t | t in s.placed
      ensures if s.placed[t].conn == c then Located(core', conn', s.placed[t], t) else SameSpot(s.core, core', t)
    {
      AboutLocated(s, t);
      ReadLocated(s, c, now, t);
    }
    ReadLink(s, c, now);
    ReadNodes(s, c, now);
    ConnMoves(s, c, core', conn');
  }

  lemma AdvanceLocated(s: Sys, c: nat, now: Protocol.Time, t: TaskId)
    requires CanContinue(s, c) && TaskLocated(s, t) && s.placed[t].conn == c && Moves(s.conns[c].cont, t)
    requires LinkOk(s.placed, s.core, c, s.conns[c])
    ensures var (core', cont') := Advance(s.core, s.conns[c].cont, now);
      Located(core', s.conns[c].(cont := cont'), s.placed[t], t)
  {
    hide EchoedOnly, InboxOk, TasksOk;
    match s.conns[c].cont
    case IndexStarted(e) => hide Unrecorded;
    case UnindexExited(e) =>
    case RecordExit(e, then_) => hide RestOk;
    case SendExit(e, then_) => hide RestOk;
  }

  lemma AdvanceSpot(s: Sys, c: nat, now: Protocol.Time, t: TaskId)
    requires CanContinue(s, c) && TaskLocated(s, t) && LinkOk(s.placed, s.core, c, s.conns[c])
    ensures var (core', cont') := Advance(s.core, s.conns[c].cont, now);
      if s.placed[t].conn == c then Located(core', s.conns[c].(cont := cont'), s.placed[t], t)
      else SameSpot(s.core, core', t)
  {
    hide EchoedOnly, InboxOk, TasksOk, OnlyAt, AtHome, RestOk;
    var conn, p := s.conns[c], s.placed[t];
    var (core', cont') := Advance(s.core, conn.cont, now);
    if Moves(conn.cont, t) {
      AdvanceLocated(s, c, now, t);
    } else {
      AdvanceOthers(s.core, conn.cont, now, t);
      SpotOf(s.core, core', t);
      NeverMovesNext(s.core, conn.cont, now, t);
      hide Advance, SameFor, SameSpot, Moving, Unrecorded;
      if p.conn == c { Bystander(s.core, core', conn, conn.(cont := cont'), p, t); }
    }
  }

  lemma NeverMovesNext(core: Core, cont: Cont, now: Protocol.Time, t: TaskId)
    requires !cont.Idle? && !Moves(cont, t)
    ensures !Moving(cont, t) && !Moving(Advance(core, cont, now).1, t)
  {
  }

  lemma AdvanceHomes(s: Sys, c: nat, now: Protocol.Time)
    requires CanContinue(s, c) && NodesOk(s) && LinkOk(s.placed, s.core, c, s.conns[c])
    ensures var (core', cont') := Advance(s.core, s.conns[c].cont, now);
      && OthersStay(s.core.nodes, core'.nodes, c)
      && NodesOk(WithConn(s, c, s.conns[c].(cont := cont')).(core := core'))
      && (s.conns[c].open ==> s.conns[c].node in core'.nodes && core'.nodes[s.conns[c].node].conn == c)
  {
    hide EchoedOnly, InboxOk, TasksOk, RestOk, Lists;
    var (core', cont') := Advance(s.core, s.conns[c].cont, now);
    forall n | n in core'.nodes
      ensures NodeOk(s.placed, s.conns[c := s.conns[c].(cont := cont')], n, core'.nodes[n])
    {
      assert NodeOk(s.placed, s.conns, n, s.core.nodes[n]);
    }
  }

  lemma AdvanceHistory(s: Sys, c: nat, now: Protocol.Time)
    requires Tracked(s) && CanContinue(s, c)
    ensures HistoryOk(s.placed, Advance(s.core, s.conns[c].cont, now).0)
  {
    hide Tracked, HistoryOk, Located, EchoedOnly, InboxOk, TasksOk, ContOk, Advance, RowsKept, EventsGrowBy;
    TrackedParts(s);
    AboutLink(s, c);
    forall t | t in s.placed ensures t in s.core.rows { RowOfLocated(s, t); }
    AdvanceIsLocal(s, c, now);
    HistoryKept(s, Advance(s.core, s.conns[c].cont, now).0);
  }

  lemma RowOfLocated(s: Sys, t: TaskId)
    requires Tracked(s) && t in s.placed
    ensures t in s.core.rows
  {
    hide Tracked, OnlyAt, AtHome, Unrecorded;
    AboutLocated(s, t);
  }

  lemma AdvanceTracked(s: Sys, c: nat, now: Protocol.Time)
    requires Tracked(s) && CanContinue(s, c)
    ensures Tracked(DoContinue(s, c, now))
  {
    hide Tracked, Located, SameSpot, OthersStay, HistoryOk, NodesOk, Advance, EchoedOnly, InboxOk, TasksOk, ContOk;
    TrackedParts(s);
    AboutLink(s, c);
    var conn := s.conns[c];
    var (core', cont') := Advance(s.core, conn.cont, now);
    var conn' := conn.(cont := cont');
    forall t | t in s.placed
      ensures if s.placed[t].conn == c then Located(core', conn', s.placed[t], t) else SameSpot(s.core, core', t)
    {
      AboutLocated(s, t);
      AdvanceSpot(s, c, now, t);
    }
    AdvanceKeepsConn(s, c, now);
    AdvanceHomes(s, c, now);
    AdvanceHistory(s, c, now);
    ConnMoves(s, c, core', conn');
  }

  // ---- The stream ends, a worker registers ----

  lemma LostLocated(core: Core, conn: Conn, p: Cluster.Place, t: TaskId, c: nat, order: seq<(TaskId, JobId)>)
    requires Located(core, conn, p, t) && p.conn == c && conn.cont.Idle? && conn.open
    requires conn.node in core.nodes && core.nodes[conn.node].conn == c
    requires Enumerates(order, core.nodes[conn.node].running)
    ensures Located(core.(nodes := core.nodes - {conn.node}),
                    conn.(cont := LogLost(conn.node, order), open := false, reading := false), p, t)
  {
    assert Lists(order, t) <==> t in core.nodes[conn.node].running;
  }

  lemma LostOrder(s: Sys, c: nat, order: seq<(TaskId, JobId)>)
    requires Tracked(s) && CanDisconnect(s, c, order)
    ensures RestOk(s.placed, c, s.conns[c].node, order)
  {
    hide Tracked, EchoedOnly, InboxOk, TasksOk;
    AboutLink(s, c);
    forall i | 0 <= i < |order| ensures Owns(s.placed, c, order[i].1, order[i].0, s.conns[c].node) {
      IndexedIsPlaced(s, s.conns[c].node, order[i].0);
    }
  }

  lemma LostNodes(s: Sys, c: nat, conn': Conn)
    requires NodesOk(s) && c in s.conns && s.conns[c].node in s.core.nodes && s.core.nodes[s.conns[c].node].conn == c
    ensures var core' := s.core.(nodes := s.core.nodes - {s.conns[c].node});
      NodesOk(WithConn(s, c, conn').(core := core')) && OthersStay(s.core.nodes, core'.nodes, c)
  {
    var nodes' := s.core.nodes - {s.conns[c].node};
    forall n | n in nodes' ensures NodeOk(s.placed, s.conns[c := conn'], n, nodes'[n]) {
      assert NodeOk(s.placed, s.conns, n, s.core.nodes[n]);
    }
  }

  lemma LostTracked(s: Sys, c: nat, order: seq<(TaskId, JobId)>)
    requires Tracked(s) && CanDisconnect(s, c, order)
    ensures Tracked(DoDisconnect(s, c, order))
  {
    hide Tracked, Located, SameSpot, OthersStay, NodesOk, EchoedOnly, InboxOk, TasksOk, RestOk, Enumerates;
    TrackedParts(s);
    AboutLink(s, c);
    LostOrder(s, c, order);
    var conn := s.conns[c];
    var core' := s.core.(nodes := s.core.nodes - {conn.node});
    var conn' := conn.(cont := LogLost(conn.node, order), open := false, reading := false);
    LostNodes(s, c, conn');
    forall t | t in s.placed
      ensures if s.placed[t].conn == c then Located(core', conn', s.placed[t], t) else SameSpot(s.core, core', t)
    {
      AboutLocated(s, t);
      if s.placed[t].conn == c {
        LostLocated(s.core, conn, s.placed[t], t, c, order);
      } else {
        OtherSpot(s.core, s.conns[s.placed[t].conn], s.placed[t], c, conn.node, t);
      }
    }
    ConnMoves(s, c, core', conn');
  }

  lemma OtherSpot(core: Core, conn: Conn, p: Cluster.Place, c: nat, n: NodeId, t: TaskId)
    requires Located(core, conn, p, t) && p.conn != c && n in core.nodes && core.nodes[n].conn == c
    ensures SameSpot(core, core.(nodes := core.nodes - {n}), t)
  {
    OtherNodeKept(core, p, c, n, t);
    SpotOf(core, core.(nodes := core.nodes - {n}), t);
  }

  lemma RegisterLink(s: Sys, c: nat, n: NodeId, policy: PolicyConfig, d: nat)
    requires Tracked(s) && c !in s.conns && n !in s.core.nodes && d in DoRegister(s, c, n, policy).conns
    ensures var s' := DoRegister(s, c, n, policy); LinkOk(s'.placed, s'.core, d, s'.conns[d])
  {
    hide Tracked, InboxOk, TasksOk;
    if d == c { EmptyOk(s.placed, c); } else { AboutLink(s, d); }
  }

  lemma RegisterTracked(s: Sys, c: nat, n: NodeId, policy: PolicyConfig)
    requires Tracked(s) && c !in s.conns && n !in s.core.nodes
    ensures Tracked(DoRegister(s, c, n, policy))
  {
    hide Tracked, LinkOk, Located, RunPlaced, SameSpot, KillOk;
    var s' := DoRegister(s, c, n, policy);
    TrackedParts(s);
    forall d | d in s'.conns ensures LinkOk(s'.placed, s'.core, d, s'.conns[d]) { RegisterLink(s, c, n, policy, d); }
    forall t | t in s'.placed ensures TaskLocated(s', t) {
      AboutLocated(s, t);
      RowOfLocated(s, t);
      RegisterSame(s, c, n, t);
      SpotOf(s.core, s'.core, t);
      SpotKept(s.core, s'.core, s.conns[s.placed[t].conn], s.placed[t], t);
    }
    forall r | r in s'.runs ensures RunPlaced(s'.placed, r, s'.runs[r]) { AboutPlaced(s, r); }
    forall m | m in s'.core.nodes ensures NodeOk(s'.placed, s'.conns, m, s'.core.nodes[m]) {
      if m != n { assert NodeOk(s.placed, s.conns, m, s.core.nodes[m]); }
    }
    MakeTracked(s');
  }

  lemma ReadErrorTracked(s: Sys, c: nat)
    requires Tracked(s) && CanLeave(s, c)
    ensures Tracked(DoReadError(s, c))
  {
    hide Tracked;
    AboutLink(s, c);
    EndMoves(s, c, s.conns[c].(reading := false));
  }

  lemma WireKeepsTracked(s: Sys, step: WireStep, s': Sys)
    requires Tracked(s) && NextWire(s, step, s') && Echoing(s, Wire(step))
    ensures Tracked(s')
  {
    hide Tracked;
    match step
    case Register(c, n, policy) => RegisterTracked(s, c, n, policy);
    case ReadMessage(c, now) => ReadTracked(s, c, now);
    case Continue(c, now) => AdvanceTracked(s, c, now);
    case ReadError(c) => ReadErrorTracked(s, c);
    case Disconnect(c, order) => LostTracked(s, c, order);
  }

  // ---- Clients ----

  /** Runs and kills change, and nothing else that matters here. */
  lemma RunsMove(s: Sys, s': Sys)
    requires Tracked(s) && s'.placed == s.placed && s'.conns == s.conns
    requires s'.core.nodes == s.core.nodes && s'.core.rows == s.core.rows && s'.core.events == s.core.events
    requires forall r :: r in s'.runs ==> RunPlaced(s'.placed, r, s'.runs[r])
    requires KillsOk(s')
    ensures Tracked(s')
  {
    hide Tracked, RunPlaced, KillsOk, EchoedOnly, InboxOk, TasksOk, Unrecorded, OnlyAt, AtHome, ContOk;
    TrackedParts(s);
    forall c | c in s'.conns ensures LinkOk(s'.placed, s'.core, c, s'.conns[c]) { AboutLink(s, c); }
    forall t | t in s'.placed ensures TaskLocated(s', t) { AboutLocated(s, t); }
    forall n | n in s'.core.nodes ensures NodeOk(s'.placed, s'.conns, n, s'.core.nodes[n]) {
      assert NodeOk(s.placed, s.conns, n, s.core.nodes[n]);
    }
    MakeTracked(s');
  }

  lemma RunMoves(s: Sys, r: nat, run': Run)
    requires Tracked(s) && RunPlaced(s.placed, r, run')
    ensures Tracked(WithRun(s, r, run'))
  {
    hide Tracked, RunPlaced;
    TrackedParts(s);
    forall q | q in s.runs ensures RunPlaced(s.placed, q, s.runs[q]) { AboutPlaced(s, q); }
    RunsMove(s, WithRun(s, r, run'));
  }

  lemma PostMoves(s: Sys, c: nat, message: CoordinatorMessage)
    requires Tracked(s) && c in s.conns && MailOk(s.placed, c, message)
    ensures Tracked(Post(s, c, message))
  {
    hide Tracked, EchoedOnly, TasksOk, MailOk;
    AboutLink(s, c);
    EndMoves(s, c, s.conns[c].(inbox := s.conns[c].inbox + [message]));
  }

  lemma SendStartTracked(s: Sys, r: nat)
    requires Tracked(s) && CanSendStart(s, r)
    ensures Tracked(DoSendStart(s, r))
  {
    hide Tracked;
    AboutPlaced(s, r);
    var run := s.runs[r];
    var (c, spec) := run.dispatch[run.next];
    assert DispatchOk(s.placed, r, run.job, run.assignments[run.next], run.dispatch[run.next], run.next);
    hide DispatchesOk;
    PostMoves(s, c, StartTask(spec));
    RunMoves(Post(s, c, StartTask(spec)), r, run.(next := run.next + 1));
  }

  lemma SendKillTracked(s: Sys, k: nat)
    requires Tracked(s) && CanSendKill(s, k)
    ensures Tracked(DoSendKill(s, k))
  {
    hide Tracked, RunPlaced;
    TrackedParts(s);
    assert KillOk(s.placed, s.kills[k]);
    var (c, t) := s.kills[k][0];
    PostMoves(s, c, KillTask(t));
    var s1 := Post(s, c, KillTask(t));
    forall r | r in s1.runs ensures RunPlaced(s1.placed, r, s1.runs[r]) { AboutPlaced(s, r); }
    assert KillOk(s.placed, s.kills[k][1..]);
    hide KillOk;
    RunsMove(s1, DoSendKill(s, k));
  }

  lemma KillJobTracked(s: Sys, k: nat, job: JobId, targets: seq<(NodeId, TaskId)>)
    requires Tracked(s) && CanKillJob(s, k, job, targets)
    ensures Tracked(DoKillJob(s, k, job, targets))
  {
    hide Tracked, RunPlaced;
    TrackedParts(s);
    var s' := DoKillJob(s, k, job, targets);
    forall i | 0 <= i < |targets|
      ensures targets[i].1 in s.placed && s.placed[targets[i].1].conn == s.core.nodes[targets[i].0].conn
    {
      assert targets[i] in KillTargets(s.core.nodes, job);
      IndexedIsPlaced(s, targets[i].0, targets[i].1);
    }
    assert KillOk(s.placed, s'.kills[k]);
    hide KillOk;
    forall r | r in s'.runs ensures RunPlaced(s'.placed, r, s'.runs[r]) { AboutPlaced(s, r); }
    RunsMove(s, s');
  }

  lemma QuietClientTracked(s: Sys, step: ClientStep, s': Sys)
    requires Tracked(s) && NextClient(s, step, s')
    requires !step.SendStart? && !step.SendKill? && !step.KillJob?
    ensures Tracked(s')
  {
    hide Tracked, DispatchesOk, KillsOk;
    TrackedParts(s);
    assert KillsOk(s') by { SameKills(s, s'); }
    forall r | r in s'.runs ensures RunPlaced(s'.placed, r, s'.runs[r]) {
      if r in s.runs { AboutPlaced(s, r); }
    }
    RunsMove(s, s');
  }

  lemma SameKills(s: Sys, s': Sys)
    requires KillsOk(s) && s'.kills == s.kills && s'.placed == s.placed
    ensures KillsOk(s')
  {
  }

  lemma ClientKeepsTracked(s: Sys, step: ClientStep, s': Sys)
    requires Tracked(s) && NextClient(s, step, s')
    ensures Tracked(s')
  {
    hide Tracked;
    match step
    case SendStart(r) => SendStartTracked(s, r);
    case SendKill(k) => SendKillTracked(s, k);
    case KillJob(k, job, targets) => KillJobTracked(s, k, job, targets);
    case _ => QuietClientTracked(s, step, s');
  }

  // ---- Placing ----

  lemma EchoesGrow(placed: Placed, placed': Placed, c: nat, sent: seq<WorkerMessage>)
    requires Grows(placed, placed') && EchoedOnly(placed, c, sent)
    ensures EchoedOnly(placed', c, sent)
  {
    forall i | 0 <= i < |sent| ensures Echoes(placed', c, sent[i]) {
      assert Echoes(placed, c, sent[i]);
    }
  }

  lemma LinkGrows(placed: Placed, placed': Placed, core: Core, core': Core, c: nat, conn: Conn)
    requires Grows(placed, placed') && CoreGrows(core, core') && LinkOk(placed, core, c, conn)
    ensures LinkOk(placed', core', c, conn)
  {
    EchoesGrow(placed, placed', c, conn.sent);
    InboxGrows(placed, placed', c, conn.inbox);
    TasksGrow(placed, placed', c, conn.tasks);
    ContGrows(placed, placed', core.rows, core'.rows, c, conn);
    hide EchoedOnly, InboxOk, TasksOk, ContOk;
  }

  lemma OldLocated(s: Sys, r: nat, job: JobId, p: Placement, run': Run, t: TaskId)
    requires Tracked(s) && Placing(s, job, p) && t in s.placed
    ensures TaskLocated(AfterPlacing(s, r, p, run'), t)
  {
    hide Tracked, Located, Places, SameSpot;
    AboutLocated(s, t);
    RowOfLocated(s, t);
    PlacedGrow(s, r, job, p);
    OldTaskSame(s, job, p, t);
    SpotOf(s.core, p.core, t);
    SpotKept(s.core, p.core, s.conns[s.placed[t].conn], s.placed[t], t);
  }

  /** A handler knows only placed tasks. */
  lemma HoldsPlaced(placed: Placed, rows: Rows, c: nat, conn: Conn, t: TaskId)
    requires ContOk(placed, rows, c, conn) && t !in placed
    ensures !Moving(conn.cont, t) && !Unrecorded(conn.cont, t)
  {
  }

  lemma NewLocated(s: Sys, r: nat, job: JobId, p: Placement, run': Run, i: nat)
    requires Tracked(s) && Placing(s, job, p) && i < |p.assignments|
    ensures TaskLocated(AfterPlacing(s, r, p, run'), p.assignments[i].task)
  {
    hide Tracked;
    var a, d := p.assignments[i], p.dispatch[i];
    TrackedParts(s);
    assert NewTask(s, job, p, a, d);
    assert NodeOk(s.placed, s.conns, a.node, s.core.nodes[a.node]);
    AboutLink(s, d.0);
    HoldsPlaced(s.placed, s.core.rows, d.0, s.conns[d.0], a.task);
    PlacedHere(s, r, job, p, i);
    NewAtHome(s, r, job, p, i);
    hide Placing, Places, OnlyAt, AtHome, Moving, Unrecorded, LinkOk, NodesOk, HistoryOk, KillsOk;
  }

  lemma PlacingTracked(s: Sys, r: nat, job: JobId, p: Placement, run': Run)
    requires Tracked(s) && Placing(s, job, p)
    requires run'.job == job && run'.assignments == p.assignments && run'.dispatch == p.dispatch
    ensures Tracked(AfterPlacing(s, r, p, run'))
  {
    var s' := AfterPlacing(s, r, p, run');
    TrackedParts(s);
    PlacedGrow(s, r, job, p);
    assert CoreGrows(s.core, p.core);
    NodesGrow(s, r, job, p, run');
    HistoryGrows(s, r, job, p);
    hide Tracked, Placing, CoreGrows, TaskLocated, LinkOk, NodesOk, HistoryOk, KillOk, Places, Grows, DispatchesOk;
    forall c | c in s'.conns ensures LinkOk(s'.placed, s'.core, c, s'.conns[c]) {
      AboutLink(s, c);
      LinkGrows(s.placed, s'.placed, s.core, s'.core, c, s.conns[c]);
    }
    forall t | t in s'.placed ensures TaskLocated(s', t) {
      if t in s.placed {
        OldLocated(s, r, job, p, run', t);
      } else {
        var i :| 0 <= i < |p.assignments| && p.assignments[i].task == t;
        NewLocated(s, r, job, p, run', i);
      }
    }
    forall q | q in s'.runs ensures RunPlaced(s'.placed, q, s'.runs[q]) {
      if q != r {
        AboutPlaced(s, q);
        var run := s.runs[q];
        if !run.phase.Subscribed? {
          DispatchesGrow(s.placed, s'.placed, q, run.job, run.assignments, run.dispatch);
        }
      }
    }
    forall k | k in s'.kills ensures KillOk(s'.placed, s'.kills[k]) {
      KillGrows(s.placed, s'.placed, s.kills[k]);
    }
    MakeTracked(s');
  }

  lemma DispatchKeepsTracked(
      s: Sys, r: nat, request: RunRequest, job: JobId, selected: seq<NodeId>, upto: nat, ids: seq<TaskId>,
      clock: seq<Protocol.Time>)
    requires Tracked(s) && CanDispatch(s, r, request, job, selected, upto, ids, clock)
    ensures Tracked(DoDispatch(s, r, request, job, selected, upto, ids, clock))
  {
    hide Tracked, Placing, FreshIds;
    var p := PlaceAll(s.core, request, job, selected[..upto], ids, clock);
    PlacementOf(s, request, job, selected[..upto], ids, clock);
    var phase := if upto < |selected| || p.assignments == [] then Stopped else Dispatching;
    var run' := s.runs[r].(phase := phase, job := job, assignments := p.assignments, dispatch := p.dispatch,
      wait := request.wait);
    PlacingTracked(s, r, job, p, run');
  }

  // ---- Every step ----

  lemma StepKeepsTracked(s: Sys, step: Step, s': Sys)
    requires Tracked(s) && Next(s, step, s') && Echoing(s, step)
    ensures Tracked(s')
  {
    hide Tracked;
    match step
    case Wire(wire) => WireKeepsTracked(s, wire, s');
    case Work(c, work) => WorkKeepsTracked(s, c, work, s');
    case Client(call) => ClientKeepsTracked(s, call, s');
    case Dispatch(r, request, job, selected, upto, ids, clock) =>
      DispatchKeepsTracked(s, r, request, job, selected, upto, ids, clock);
  }
}
