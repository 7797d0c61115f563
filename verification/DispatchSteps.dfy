/** Placing the tasks of a run keeps the lifecycle invariant. */
module DispatchSteps {
  import opened Protocol
  import opened JobStore
  import opened CoordinatorCore
  import opened Cluster
  import opened Lifecycle
  import opened CoordinatorSteps
  import opened ClientSteps

  // ---- More tasks are placed ----

  predicate Grows(placed: Placed, placed': Placed) {
    forall t :: t in placed ==> t in placed' && placed'[t] == placed[t]
  }

  lemma RestGrows(placed: Placed, placed': Placed, c: nat, node: NodeId, rest: seq<(TaskId, JobId)>)
    requires Grows(placed, placed') && RestOk(placed, c, node, rest)
    ensures RestOk(placed', c, node, rest)
  {
  }

  lemma SentGrows(placed: Placed, placed': Placed, c: nat, sent: seq<WorkerMessage>)
    requires Grows(placed, placed') && SentOk(placed, c, sent)
    ensures SentOk(placed', c, sent)
  {
    forall i | 0 <= i < |sent| ensures MessageOk(placed', c, sent[i]) {
      assert MessageOk(placed, c, sent[i]);
    }
  }

  lemma InboxGrows(placed: Placed, placed': Placed, c: nat, inbox: seq<CoordinatorMessage>)
    requires Grows(placed, placed') && InboxOk(placed, c, inbox)
    ensures InboxOk(placed', c, inbox)
  {
    forall i | 0 <= i < |inbox| ensures MailOk(placed', c, inbox[i]) {
      assert MailOk(placed, c, inbox[i]);
    }
  }

  lemma TasksGrow(placed: Placed, placed': Placed, c: nat, tasks: map<TaskId, WorkerTask>)
    requires Grows(placed, placed') && TasksOk(placed, c, tasks)
    ensures TasksOk(placed', c, tasks)
  {
    forall t | t in tasks ensures WorkerTaskOk(placed', c, t, tasks[t]) {
      assert WorkerTaskOk(placed, c, t, tasks[t]);
      if tasks[t].Live? { SentGrows(placed, placed', c, tasks[t].events); }
    }
  }

  lemma ContGrows(placed: Placed, placed': Placed, rows: Rows, rows': Rows, c: nat, conn: Conn)
    requires Grows(placed, placed') && ContOk(placed, rows, c, conn)
    requires forall t :: t in rows ==> t in rows' && rows'[t] == rows[t]
    ensures ContOk(placed', rows', c, conn)
  {
    match conn.cont
    case RecordExit(e, NextLost(node, rest)) => RestGrows(placed, placed', c, node, rest); hide RestOk;
    case SendExit(e, NextLost(node, rest)) => RestGrows(placed, placed', c, node, rest); hide RestOk;
    case LogLost(node, rest) => RestGrows(placed, placed', c, node, rest); hide RestOk;
    case SendLostLog(node, rest, _) => RestGrows(placed, placed', c, node, rest); hide RestOk;
    case _ =>
  }

  predicate CoreGrows(core: Core, core': Core) {
    && (forall t :: t in core.rows ==> t in core'.rows && core'.rows[t] == core.rows[t])
    && core'.nodes.Keys == core.nodes.Keys
    && (forall n :: n in core.nodes ==> core'.nodes[n].conn == core.nodes[n].conn)
    && core'.events == core.events
  }

  lemma ConnGrows(placed: Placed, placed': Placed, core: Core, core': Core, c: nat, conn: Conn)
    requires Grows(placed, placed') && CoreGrows(core, core') && ConnOk(placed, core, c, conn)
    ensures ConnOk(placed', core', c, conn)
  {
    SentGrows(placed, placed', c, conn.sent);
    InboxGrows(placed, placed', c, conn.inbox);
    TasksGrow(placed, placed', c, conn.tasks);
    ContGrows(placed, placed', core.rows, core'.rows, c, conn);
    hide SentOk, InboxOk, TasksOk, ContOk;
  }

  lemma KillGrows(placed: Placed, placed': Placed, kill: seq<(nat, TaskId)>)
    requires Grows(placed, placed') && KillOk(placed, kill)
    ensures KillOk(placed', kill)
  {
  }

  lemma DispatchesGrow(
      placed: Placed, placed': Placed, r: nat, job: JobId, assignments: seq<TaskAssignment>,
      dispatch: seq<(nat, RunSpec)>)
    requires Grows(placed, placed') && DispatchesOk(placed, r, job, assignments, dispatch)
    ensures DispatchesOk(placed', r, job, assignments, dispatch)
  {
    forall i | 0 <= i < |dispatch| ensures DispatchOk(placed', r, job, assignments[i], dispatch[i], i) {
      assert DispatchOk(placed, r, job, assignments[i], dispatch[i], i);
    }
  }

  // ---- The new places ----

  lemma {:induction false} PlacesAre(r: nat, assignments: seq<TaskAssignment>, dispatch: seq<(nat, RunSpec)>)
    requires |assignments| == |dispatch|
    requires forall i, j :: 0 <= i < j < |assignments| ==> assignments[i].task != assignments[j].task
    ensures forall t :: t in Places(r, assignments, dispatch) <==>
              exists i :: 0 <= i < |assignments| && assignments[i].task == t
    ensures forall i :: 0 <= i < |assignments| ==>
              && assignments[i].task in Places(r, assignments, dispatch)
              && Places(r, assignments, dispatch)[assignments[i].task]
                 == Cluster.Place(assignments[i].job, assignments[i].node, dispatch[i].0, r, i)
  {
    if assignments != [] {
      PlacesAre(r, assignments[..|assignments| - 1], dispatch[..|assignments| - 1]);
    }
  }

  /** The outcome of a dispatch, as far as the invariant needs it. */
  predicate Placing(s: Sys, job: JobId, p: Placement) {
    && |p.assignments| == |p.dispatch|
    && (forall i, j :: 0 <= i < j < |p.assignments| ==> p.assignments[i].task != p.assignments[j].task)
    && (forall i :: 0 <= i < |p.assignments| ==> NewTask(s, job, p, p.assignments[i], p.dispatch[i]))
    && CoreGrows(s.core, p.core)
    && (forall t :: t in p.core.rows && t !in s.core.rows ==>
          exists i :: 0 <= i < |p.assignments| && p.assignments[i].task == t)
    && (forall n, t :: n in s.core.nodes && t in p.core.nodes[n].running ==>
          if t in s.core.nodes[n].running then p.core.nodes[n].running[t] == s.core.nodes[n].running[t]
          else TaskAssignment(job, t, n) in p.assignments && p.core.nodes[n].running[t] == job)
    && (forall n, t :: n in s.core.nodes && t in s.core.nodes[n].running ==> t in p.core.nodes[n].running)
  }

  predicate NewTask(s: Sys, job: JobId, p: Placement, a: TaskAssignment, d: (nat, RunSpec)) {
    && a.job == job && a.task !in s.placed && a.task !in s.core.rows
    && a.node in s.core.nodes && d.0 == s.core.nodes[a.node].conn
    && d.1.job == job && d.1.task == a.task && d.1.node == a.node
    && a.task in p.core.rows && p.core.rows[a.task].job == job && p.core.rows[a.task].node == a.node
    && p.core.rows[a.task].status.Queued?
    && a.node in p.core.nodes && a.task in p.core.nodes[a.node].running
  }

  lemma PlacementTasks(
      s: Sys, request: RunRequest, job: JobId, selected: seq<NodeId>, ids: seq<TaskId>, clock: seq<Protocol.Time>,
      i: nat)
    requires |selected| <= |ids| == |clock| && Unused(s, job, ids)
    requires i < |PlaceAll(s.core, request, job, selected, ids, clock).assignments|
    ensures var p := PlaceAll(s.core, request, job, selected, ids, clock);
      NewTask(s, job, p, p.assignments[i], p.dispatch[i])
  {
    var p := PlaceAll(s.core, request, job, selected, ids, clock);
    PlaceAligned(s.core, request, job, selected, ids, clock);
    PlacedRow(s.core, request, job, selected, ids, clock, i);
    PlaceIndex(s.core, request, job, selected, ids, clock, p.assignments[i].node, ids[i]);
  }

  lemma PlacementRows(
      s: Sys, request: RunRequest, job: JobId, selected: seq<NodeId>, ids: seq<TaskId>, clock: seq<Protocol.Time>,
      t: TaskId)
    requires |selected| <= |ids| == |clock| && Unused(s, job, ids)
    ensures var p := PlaceAll(s.core, request, job, selected, ids, clock);
      && (t in s.core.rows ==> t in p.core.rows && p.core.rows[t] == s.core.rows[t])
      && (t in p.core.rows && t !in s.core.rows ==> exists i :: 0 <= i < |p.assignments| && p.assignments[i].task == t)
  {
    var p := PlaceAll(s.core, request, job, selected, ids, clock);
    PlaceAligned(s.core, request, job, selected, ids, clock);
    PlaceRows(s.core, request, job, selected, ids, clock, t);
    if t in ids[..|p.assignments|] {
      var i :| 0 <= i < |p.assignments| && ids[i] == t;
      assert p.assignments[i].task == t;
    }
  }

  lemma PlacementOf(
      s: Sys, request: RunRequest, job: JobId, selected: seq<NodeId>, ids: seq<TaskId>, clock: seq<Protocol.Time>)
    requires |selected| <= |ids| == |clock| && Unused(s, job, ids)
    ensures Placing(s, job, PlaceAll(s.core, request, job, selected, ids, clock))
  {
    hide PlaceAll, NewTask, Connected, Disconnected;
    var p := PlaceAll(s.core, request, job, selected, ids, clock);
    PlaceAligned(s.core, request, job, selected, ids, clock);
    forall i | 0 <= i < |p.assignments| ensures NewTask(s, job, p, p.assignments[i], p.dispatch[i]) {
      PlacementTasks(s, request, job, selected, ids, clock, i);
    }
    forall t
      ensures t in s.core.rows ==> t in p.core.rows && p.core.rows[t] == s.core.rows[t]
      ensures t in p.core.rows && t !in s.core.rows ==>
                exists i :: 0 <= i < |p.assignments| && p.assignments[i].task == t
    {
      PlacementRows(s, request, job, selected, ids, clock, t);
    }
    forall n, t | n in s.core.nodes
      ensures t in p.core.nodes[n].running ==>
                if t in s.core.nodes[n].running then p.core.nodes[n].running[t] == s.core.nodes[n].running[t]
                else TaskAssignment(job, t, n) in p.assignments && p.core.nodes[n].running[t] == job
      ensures t in s.core.nodes[n].running ==> t in p.core.nodes[n].running
    {
      PlaceIndex(s.core, request, job, selected, ids, clock, n, t);
    }
  }

  function AfterPlacing(s: Sys, r: nat, p: Placement, run': Run): Sys
    requires |p.assignments| == |p.dispatch|
  {
    WithRun(s, r, run').(core := p.core, placed := s.placed + Places(r, p.assignments, p.dispatch))
  }

  predicate NewRun(s: Sys, r: nat, job: JobId, p: Placement, run': Run) {
    && r in s.runs && s.runs[r].phase.Subscribed?
    && (run'.phase.Dispatching? || run'.phase.Stopped?)
    && run'.job == job && run'.assignments == p.assignments && run'.dispatch == p.dispatch && run'.next == 0
  }

  lemma PlacedGrow(s: Sys, r: nat, job: JobId, p: Placement)
    requires Placing(s, job, p)
    ensures var placed' := s.placed + Places(r, p.assignments, p.dispatch);
      && Grows(s.placed, placed')
      && (forall i :: 0 <= i < |p.assignments| ==> p.assignments[i].task in placed')
      && DispatchesOk(placed', r, job, p.assignments, p.dispatch)
      && (forall t :: t in placed' && t !in s.placed ==>
            exists i :: 0 <= i < |p.assignments| && p.assignments[i].task == t)
  {
    PlacesAre(r, p.assignments, p.dispatch);
    forall t | t in s.placed ensures t !in Places(r, p.assignments, p.dispatch) {
      forall i | 0 <= i < |p.assignments| ensures p.assignments[i].task != t {
        assert NewTask(s, job, p, p.assignments[i], p.dispatch[i]);
      }
    }
    forall i | 0 <= i < |p.assignments|
      ensures DispatchOk(s.placed + Places(r, p.assignments, p.dispatch), r, job, p.assignments[i], p.dispatch[i], i)
    {
      assert NewTask(s, job, p, p.assignments[i], p.dispatch[i]);
    }
  }

  lemma OldTaskSame(s: Sys, job: JobId, p: Placement, t: TaskId)
    requires Placing(s, job, p) && t in s.placed && t in s.core.rows
    ensures SameFor(s.core, p.core, t)
  {
    forall n ensures TaskAssignment(job, t, n) !in p.assignments {
      forall i | 0 <= i < |p.assignments| ensures p.assignments[i] != TaskAssignment(job, t, n) {
        assert NewTask(s, job, p, p.assignments[i], p.dispatch[i]);
      }
    }
    hide NewTask, Exits;
  }

  lemma OldTaskRun(s: Sys, r: nat, job: JobId, p: Placement, run': Run, t: TaskId)
    requires NewRun(s, r, job, p, run') && TaskOk(s, t)
    ensures TaskIn(s.core, s.runs[r := run'], s.conns[s.placed[t].conn], s.placed[t], t)
  {
    hide Shape, StatusOk, IndexOk, EventsOk;
  }

  lemma OldTask(s: Sys, r: nat, job: JobId, p: Placement, run': Run, t: TaskId)
    requires Placing(s, job, p) && NewRun(s, r, job, p, run') && TaskOk(s, t)
    ensures TaskOk(AfterPlacing(s, r, p, run'), t)
  {
    RowOfTask(s, t);
    PlacedGrow(s, r, job, p);
    OldTaskSame(s, job, p, t);
    OldTaskRun(s, r, job, p, run', t);
    assert |p.assignments| == |p.dispatch|;
    hide TaskIn, SameFor, Placing, Places, DispatchesOk, NewRun;
    TaskKept(s.core, p.core, s.runs[r := run'], s.conns[s.placed[t].conn], s.placed[t], t);
  }

  /** A connection that has never heard of `t`. */
  lemma Unheard(placed: Placed, c: nat, conn: Conn, rows: Rows, t: TaskId)
    requires t !in placed && SentOk(placed, c, conn.sent) && InboxOk(placed, c, conn.inbox)
    requires TasksOk(placed, c, conn.tasks) && ContOk(placed, rows, c, conn)
    requires conn.read <= |conn.sent| && conn.got <= |conn.inbox|
    ensures Marks(conn.sent, t) == [] && Marks(conn.sent[..conn.read], t) == [] && LogsAfterStart(conn.sent, t)
    ensures Delivered(conn, t, false) && t !in conn.tasks
    ensures !Unrecorded(conn.cont, t) && !Unsent(conn.cont, t)
  {
    forall i | 0 <= i < |conn.sent|
      ensures MarkOf(conn.sent[i], t) == [] && !(conn.sent[i].Log? && conn.sent[i].log.task == t)
    {
      assert MessageOk(placed, c, conn.sent[i]);
    }
    NoMarks(conn.sent, t);
    NoMarks(conn.sent[..conn.read], t);
    forall i | 0 <= i < |conn.inbox| && conn.inbox[i].StartTask? ensures conn.inbox[i].spec.task != t {
      assert MailOk(placed, c, conn.inbox[i]);
    }
    NoStarts(conn.inbox, t);
    NoStarts(conn.inbox[..conn.got], t);
    assert t in conn.tasks ==> WorkerTaskOk(placed, c, t, conn.tasks[t]);
  }

  lemma AboutNode(s: Sys, n: NodeId)
    requires Life(s) && n in s.core.nodes
    ensures NodeOk(s.placed, s.conns, n, s.core.nodes[n])
  {
    hide ConnsOk, AllTasksOk, RunsOk, KillsOk, HistoryOk, NodeOk;
  }

  lemma NodesOfLife(s: Sys)
    requires Life(s)
    ensures NodesOk(s)
  {
    hide ConnsOk, AllTasksOk, RunsOk, KillsOk, HistoryOk, NodesOk;
  }

  lemma AboutHistory(s: Sys)
    requires Life(s)
    ensures HistoryOk(s.placed, s.core)
  {
    hide ConnsOk, AllTasksOk, RunsOk, KillsOk, NodesOk, HistoryOk;
  }

  /** A connection and a log in which nothing about `t` has happened. */
  predicate Untouched(conn: Conn, events: seq<CoordinatorEvent>, t: TaskId) {
    && conn.open && conn.read <= |conn.sent|
    && Marks(conn.sent, t) == [] && Marks(conn.sent[..conn.read], t) == [] && LogsAfterStart(conn.sent, t)
    && Delivered(conn, t, false) && t !in conn.tasks
    && !Unrecorded(conn.cont, t) && !Unsent(conn.cont, t)
    && Exits(events, t) == []
  }

  lemma NewTaskConn(s: Sys, n: NodeId, t: TaskId)
    requires Life(s) && n in s.core.nodes && t !in s.placed
    ensures s.core.nodes[n].conn in s.conns
    ensures var conn := s.conns[s.core.nodes[n].conn]; conn.node == n && Untouched(conn, s.core.events, t)
  {
    hide Life;
    AboutNode(s, n);
    var c := s.core.nodes[n].conn;
    AboutConn(s, c);
    AboutHistory(s);
    Unheard(s.placed, c, s.conns[c], s.core.rows, t) by { hide HistoryOk, NodeOk, SentOk, InboxOk, TasksOk, ContOk; }
    NoExits(s.core.events, t);
    hide Marks, SentOk, InboxOk, TasksOk, ContOk, LogsAfterStart, Exits, Unrecorded;
  }

  lemma PlacedHere(s: Sys, r: nat, job: JobId, p: Placement, i: nat)
    requires Placing(s, job, p) && i < |p.assignments|
    ensures DispatchOk(s.placed + Places(r, p.assignments, p.dispatch), r, job, p.assignments[i], p.dispatch[i], i)
  {
    PlacedGrow(s, r, job, p);
  }

  lemma NewTaskIn(s: Sys, r: nat, job: JobId, p: Placement, run': Run, i: nat)
    requires Life(s) && Placing(s, job, p) && NewRun(s, r, job, p, run') && i < |p.assignments|
    ensures TaskOk(AfterPlacing(s, r, p, run'), p.assignments[i].task)
  {
    hide Life, NodesOk;
    var a, d := p.assignments[i], p.dispatch[i];
    assert NewTask(s, job, p, a, d);
    assert p.core.events == s.core.events && |p.assignments| == |p.dispatch|;
    PlacedHere(s, r, job, p, i);
    NodesOfLife(s);
    NewAtHome(s, r, job, p, i);
    hide Placing, Places;
    NewTaskConn(s, a.node, a.task);
    hide Untouched, OnlyAt, AtHome, TaskIn;
    NewTaskParts(p.core, s.runs[r := run'], s.conns[d.0], Cluster.Place(job, a.node, d.0, r, i), a.task);
  }

  /** A task placed now is nowhere in the index but where it was placed. */
  lemma NewOnlyAt(s: Sys, job: JobId, p: Placement, i: nat, n: NodeId)
    requires NodesOk(s) && Placing(s, job, p) && i < |p.assignments|
    requires n in p.core.nodes && p.assignments[i].task in p.core.nodes[n].running
    ensures n == p.assignments[i].node && p.core.nodes[n].running[p.assignments[i].task] == job
  {
    var t := p.assignments[i].task;
    assert NewTask(s, job, p, p.assignments[i], p.dispatch[i]);
    assert NodeOk(s.placed, s.conns, n, s.core.nodes[n]);
    var j :| 0 <= j < |p.assignments| && p.assignments[j] == TaskAssignment(job, t, n);
    assert i == j;
  }

  lemma NewAtHome(s: Sys, r: nat, job: JobId, p: Placement, i: nat)
    requires NodesOk(s) && Placing(s, job, p) && i < |p.assignments|
    ensures var a, d := p.assignments[i], p.dispatch[i];
      var place := Cluster.Place(job, a.node, d.0, r, i);
      OnlyAt(p.core.nodes, place, a.task) && AtHome(p.core.nodes, place, a.task)
  {
    var a, d := p.assignments[i], p.dispatch[i];
    assert NewTask(s, job, p, a, d);
    assert d.0 == p.core.nodes[a.node].conn;
    forall n | n in p.core.nodes && a.task in p.core.nodes[n].running
      ensures n == a.node && p.core.nodes[n].conn == d.0 && p.core.nodes[n].running[a.task] == job
    {
      NewOnlyAt(s, job, p, i, n);
    }
  }

  lemma NewTaskParts(core: Core, runs: map<nat, Run>, conn: Conn, place: Cluster.Place, t: TaskId)
    requires t in core.rows && core.rows[t].job == place.job && core.rows[t].node == place.node
    requires conn.node == place.node
    requires core.rows[t].status.Queued? && Untouched(conn, core.events, t)
    requires PlaceOk(runs, t, place) && !Posted(runs, place)
    requires OnlyAt(core.nodes, place, t) && AtHome(core.nodes, place, t)
    ensures TaskIn(core, runs, conn, place, t)
  {
    hide Marks, LogsAfterStart, Delivered, PlaceOk, OnlyAt, AtHome, Exits, Unrecorded;
  }

  lemma OtherRunGrows(s: Sys, r: nat, job: JobId, p: Placement, q: nat)
    requires Placing(s, job, p) && q in s.runs && RunOk(s.placed, s.core, q, s.runs[q])
    requires !s.runs[q].phase.Subscribed? ==> s.runs[q].job != job
    ensures RunOk(s.placed + Places(r, p.assignments, p.dispatch), p.core, q, s.runs[q])
  {
    PlacedGrow(s, r, job, p);
    var placed', run := s.placed + Places(r, p.assignments, p.dispatch), s.runs[q];
    if !run.phase.Subscribed? {
      DispatchesGrow(s.placed, placed', q, run.job, run.assignments, run.dispatch);
      forall t | t in p.core.rows && p.core.rows[t].job == run.job ensures t in placed' && placed'[t].run == q {
        assert t in s.core.rows;
      }
    }
  }

  lemma NewRunOk(s: Sys, r: nat, job: JobId, p: Placement, run': Run)
    requires Placing(s, job, p) && NewRun(s, r, job, p, run')
    requires forall t :: t in s.core.rows ==> s.core.rows[t].job != job
    ensures RunOk(s.placed + Places(r, p.assignments, p.dispatch), p.core, r, run')
  {
    PlacedGrow(s, r, job, p);
    var placed' := s.placed + Places(r, p.assignments, p.dispatch);
    forall t | t in p.core.rows && p.core.rows[t].job == job ensures t in placed' && placed'[t].run == r {
      assert t !in s.core.rows;
      var i :| 0 <= i < |p.assignments| && p.assignments[i].task == t;
      assert DispatchOk(placed', r, job, p.assignments[i], p.dispatch[i], i);
    }
  }

  lemma HistoryGrows(s: Sys, r: nat, job: JobId, p: Placement)
    requires Placing(s, job, p) && HistoryOk(s.placed, s.core)
    ensures HistoryOk(s.placed + Places(r, p.assignments, p.dispatch), p.core)
  {
    PlacedGrow(s, r, job, p);
    var placed' := s.placed + Places(r, p.assignments, p.dispatch);
    forall t | t in p.core.rows && t !in placed' ensures !Unfinished(p.core.rows[t].status) {
      assert t in s.core.rows;
    }
  }

  lemma NodesGrow(s: Sys, r: nat, job: JobId, p: Placement, run': Run)
    requires Placing(s, job, p) && NodesOk(s)
    ensures NodesOk(AfterPlacing(s, r, p, run'))
  {
    PlacedGrow(s, r, job, p);
    hide NewTask, DispatchesOk, Places;
    var placed' := s.placed + Places(r, p.assignments, p.dispatch);
    forall n | n in p.core.nodes ensures NodeOk(placed', s.conns, n, p.core.nodes[n]) {
      assert NodeOk(s.placed, s.conns, n, s.core.nodes[n]);
      forall t | t in p.core.nodes[n].running ensures t in placed' {
        if t !in s.core.nodes[n].running {
          assert TaskAssignment(job, t, n) in p.assignments;
        }
      }
    }
  }

  lemma PlacingGrows(s: Sys, job: JobId, p: Placement)
    requires Placing(s, job, p)
    ensures CoreGrows(s.core, p.core)
  {
  }

  lemma PlacingKeepsConns(s: Sys, r: nat, job: JobId, p: Placement, run': Run)
    requires Life(s) && Placing(s, job, p) && NewRun(s, r, job, p, run')
    ensures var s' := AfterPlacing(s, r, p, run');
      forall c :: c in s'.conns ==> ConnOk(s'.placed, s'.core, c, s'.conns[c])
  {
    var s' := AfterPlacing(s, r, p, run');
    PlacedGrow(s, r, job, p);
    PlacingGrows(s, job, p);
    hide Life, Placing, CoreGrows, ConnOk, Places, Grows, NewRun, DispatchesOk;
    forall c | c in s'.conns ensures ConnOk(s'.placed, s'.core, c, s'.conns[c]) {
      AboutConn(s, c);
      ConnGrows(s.placed, s'.placed, s.core, s'.core, c, s.conns[c]);
    }
  }

  lemma PlacingKeepsTasks(s: Sys, r: nat, job: JobId, p: Placement, run': Run)
    requires Life(s) && Placing(s, job, p) && NewRun(s, r, job, p, run')
    ensures var s' := AfterPlacing(s, r, p, run'); forall t :: t in s'.placed ==> TaskOk(s', t)
  {
    var s' := AfterPlacing(s, r, p, run');
    PlacedGrow(s, r, job, p);
    hide Life, Placing, TaskOk, Places, Grows, NewRun, DispatchesOk;
    forall t | t in s'.placed ensures TaskOk(s', t) {
      if t in s.placed {
        AboutTask(s, t);
        OldTask(s, r, job, p, run', t);
      } else {
        var i :| 0 <= i < |p.assignments| && p.assignments[i].task == t;
        NewTaskIn(s, r, job, p, run', i);
      }
    }
  }

  lemma PlacingKeepsRuns(s: Sys, r: nat, job: JobId, p: Placement, run': Run)
    requires Life(s) && Placing(s, job, p) && NewRun(s, r, job, p, run')
    requires forall t :: t in s.core.rows ==> s.core.rows[t].job != job
    requires forall q :: q in s.runs ==> s.runs[q].phase.Subscribed? || s.runs[q].job != job
    ensures RunsOk(AfterPlacing(s, r, p, run'))
  {
    var s' := AfterPlacing(s, r, p, run');
    hide Placing, RunOk, Places, NewRun, NodesOk, HistoryOk, ConnsOk, AllTasksOk, KillsOk;
    forall q | q in s'.runs ensures RunOk(s'.placed, s'.core, q, s'.runs[q]) {
      if q == r { NewRunOk(s, r, job, p, run'); } else { OtherRunGrows(s, r, job, p, q); }
    }
  }

  lemma PlacingKeeps(s: Sys, r: nat, job: JobId, p: Placement, run': Run)
    requires Life(s) && Placing(s, job, p) && NewRun(s, r, job, p, run')
    requires forall t :: t in s.core.rows ==> s.core.rows[t].job != job
    requires forall q :: q in s.runs ==> s.runs[q].phase.Subscribed? || s.runs[q].job != job
    ensures Life(AfterPlacing(s, r, p, run'))
  {
    var s' := AfterPlacing(s, r, p, run');
    hide Placing, Places, NewRun, TaskOk, ConnOk, NodesOk, HistoryOk, ConnsOk, AllTasksOk, RunsOk;
    NodesGrow(s, r, job, p, run');
    HistoryGrows(s, r, job, p);
    PlacingKeepsConns(s, r, job, p, run');
    PlacingKeepsTasks(s, r, job, p, run');
    PlacingKeepsRuns(s, r, job, p, run');
    assert KillsOk(s') by {
      PlacedGrow(s, r, job, p);
      hide KillOk, Grows, DispatchesOk;
      forall k | k in s'.kills ensures KillOk(s'.placed, s'.kills[k]) {
        KillGrows(s.placed, s'.placed, s.kills[k]);
      }
    }
    hide KillsOk;
    MakeLife(s');
  }

  lemma DispatchKeepsLife(
      s: Sys, r: nat, request: RunRequest, job: JobId, selected: seq<NodeId>, upto: nat, ids: seq<TaskId>,
      clock: seq<Protocol.Time>)
    requires Life(s) && CanDispatch(s, r, request, job, selected, upto, ids, clock)
    ensures Life(DoDispatch(s, r, request, job, selected, upto, ids, clock))
  {
    hide Life, Placing, FreshIds;
    var p := PlaceAll(s.core, request, job, selected[..upto], ids, clock);
    PlacementOf(s, request, job, selected[..upto], ids, clock);
    assert s.runs[r].next == 0 by { AboutRun(s, r); }
    var phase := if upto < |selected| || p.assignments == [] then Stopped else Dispatching;
    var run' := s.runs[r].(phase := phase, job := job, assignments := p.assignments, dispatch := p.dispatch,
      wait := request.wait);
    PlacingKeeps(s, r, job, p, run');
  }
}
