/** What the lifecycle invariant gives over every run of the whole system. */
module Guarantees {
  import opened Protocol
  import opened JobStore
  import opened CoordinatorCore
  import opened WaitLoop
  import opened Policy
  import opened Cluster
  import opened Lifecycle
  import opened WorkerSteps
  import opened CoordinatorSteps
  import opened ClientSteps
  import opened DispatchSteps
  import opened IndexInvariant
  import opened IndexSteps

  lemma StepKeepsLife(s: Sys, step: Step, s': Sys)
    requires Life(s) && Next(s, step, s') && Honest(s, step)
    ensures Life(s')
  {
    hide Life;
    match step
    case Wire(wire) => WireKeepsLife(s, wire, s');
    case Work(c, work) => WorkKeepsLife(s, c, work, s');
    case Client(call) => ClientKeepsLife(s, call, s');
    case Dispatch(r, request, job, selected, upto, ids, clock) =>
      DispatchKeepsLife(s, r, request, job, selected, upto, ids, clock);
  }

  ghost predicate HonestRun(states: seq<Sys>, steps: seq<Step>) {
    Execution(states, steps) && forall k :: 0 <= k < |steps| ==> Honest(states[k], steps[k])
  }

  lemma {:induction false} LifeHolds(states: seq<Sys>, steps: seq<Step>, i: nat)
    requires HonestRun(states, steps) && i <= |steps|
    ensures Life(states[i])
  {
    if i > 0 {
      LifeHolds(states, steps, i - 1);
      assert Next(states[i - 1], steps[i - 1], states[i - 1 + 1]);
      hide Life;
      StepKeepsLife(states[i - 1], steps[i - 1], states[i]);
    }
  }

  /** A state that some honest run ends in. */
  ghost predicate Reachable(s: Sys) {
    exists states, steps :: HonestRun(states, steps) && states[|steps|] == s
  }

  lemma ReachableLives(s: Sys)
    requires Reachable(s)
    ensures Life(s)
  {
    var states, steps :| HonestRun(states, steps) && states[|steps|] == s;
    LifeHolds(states, steps, |steps|);
  }

  // ---- The life of a task ----

  /** queued to running to succeeded or failed, or queued to failed. */
  predicate Edge(from: Status, to: Status) {
    || from == to
    || (from.Queued? && (to.Running? || to.Failed?))
    || (from.Running? && (to.Succeeded? || to.Failed?))
  }

  lemma ReadMovesStatus(s: Sys, c: nat, now: Protocol.Time, t: TaskId)
    requires Life(s) && CanRead(s, c) && t in s.core.rows
    ensures t in DoRead(s, c, now).core.rows
    ensures Edge(s.core.rows[t].status, DoRead(s, c, now).core.rows[t].status)
  {
    hide Life;
    var conn := s.conns[c];
    AboutConn(s, c);
    assert MessageOk(s.placed, c, conn.sent[conn.read]);
    match conn.sent[conn.read]
    case Started(e) =>
      AboutTask(s, e.task);
      NextMark(conn.sent, conn.read, e.task);
    case Exited(e) =>
      AboutTask(s, e.task);
      ExitedSubject(s.core, s.runs, conn, s.placed[e.task], e);
    case _ =>
  }

  lemma ContinueMovesStatus(s: Sys, c: nat, now: Protocol.Time, t: TaskId)
    requires Life(s) && CanContinue(s, c) && t in s.core.rows
    ensures t in DoContinue(s, c, now).core.rows
    ensures Edge(s.core.rows[t].status, DoContinue(s, c, now).core.rows[t].status)
  {
    hide Life;
    AboutConn(s, c);
    match s.conns[c].cont
    case RecordExit(e, then_) =>
      AboutTask(s, e.task);
      hide Shape, Delivered, IndexOk, EventsOk, PlaceOk;
    case _ =>
  }

  lemma WorkKeepsCore(s: Sys, c: nat, step: WorkStep, s': Sys)
    requires NextWork(s, c, step, s')
    ensures s'.core == s.core
  {
  }

  lemma ClientKeepsRows(s: Sys, step: ClientStep, s': Sys)
    requires NextClient(s, step, s')
    ensures s'.core.rows == s.core.rows
  {
  }

  /** In one step a row keeps its status or moves along one edge of the lifecycle; no row disappears. */
  lemma StatusMoves(s: Sys, step: Step, s': Sys, t: TaskId)
    requires Life(s) && Next(s, step, s') && Honest(s, step) && t in s.core.rows
    ensures t in s'.core.rows && Edge(s.core.rows[t].status, s'.core.rows[t].status)
  {
    hide Life, Edge, NextWork, NextClient;
    SameEdge(s.core.rows[t].status);
    match step
    case Wire(ReadMessage(c, now)) => ReadMovesStatus(s, c, now, t);
    case Wire(Continue(c, now)) => ContinueMovesStatus(s, c, now, t);
    case Dispatch(r, request, job, selected, upto, ids, clock) =>
      PlaceRows(s.core, request, job, selected[..upto], ids, clock, t);
    case Work(c, work) => WorkKeepsCore(s, c, work, s');
    case Client(call) => ClientKeepsRows(s, call, s');
    case _ =>
  }

  lemma SameEdge(status: Status)
    ensures Edge(status, status)
  {
  }

  lemma StepOf(states: seq<Sys>, steps: seq<Step>, j: nat)
    requires HonestRun(states, steps) && j < |steps|
    ensures |states| == |steps| + 1 && Next(states[j], steps[j], states[j + 1]) && Honest(states[j], steps[j])
  {
    hide Next, Honest;
  }

  /** Over every run: each step takes a task's row along the lifecycle at most once, and a finished row stays as it
      is. */
  lemma {:induction false} TaskLifecycle(states: seq<Sys>, steps: seq<Step>, t: TaskId, i: nat, j: nat)
    requires HonestRun(states, steps) && i <= j <= |steps| && t in states[i].core.rows
    ensures t in states[j].core.rows
    ensures j < |steps| ==>
              t in states[j + 1].core.rows && Edge(states[j].core.rows[t].status, states[j + 1].core.rows[t].status)
    ensures !Unfinished(states[i].core.rows[t].status) ==>
              states[j].core.rows[t].status == states[i].core.rows[t].status
  {
    hide HonestRun, Life, Next, Honest;
    if i < j {
      TaskLifecycle(states, steps, t, i, j - 1);
    }
    if j < |steps| {
      StepOf(states, steps, j);
      LifeHolds(states, steps, j);
      StatusMoves(states[j], steps[j], states[j + 1], t);
    }
  }

  /** The broadcast log holds at most one exit of a task, and it holds one exactly when the row is finished and no
      handler still has to send it; that exit says what the row says. */
  lemma OneExitPerTask(s: Sys, t: TaskId)
    requires Reachable(s) && t in s.placed
    ensures t in s.core.rows && s.placed[t].conn in s.conns
    ensures var exits, row := Exits(s.core.events, t), s.core.rows[t];
      && |exits| <= 1
      && (|exits| == 1 <==> !Unfinished(row.status) && !Unsent(s.conns[s.placed[t].conn].cont, t))
      && (|exits| == 1 ==> StatusOf(exits[0]) == row.status && exits[0].job == row.job && exits[0].node == row.node)
  {
    hide Life, Exits, Shape, Delivered, StatusOk, IndexOk, PlaceOk;
    ReachableLives(s);
    AboutTask(s, t);
  }

  /** What the coordinator may hear about `t` on its connection, and when it has heard everything. */
  predicate Verdict(conn: Conn, t: TaskId) {
    var v := Marks(conn.sent, t);
    && Legal(v) && LogsAfterStart(conn.sent, t)
    && (v != [] ==> t in conn.tasks && !conn.tasks[t].Received?)
    && (v != [] && v[0] == Begun ==> conn.tasks[t].Live? && Authorize(conn.policy, conn.tasks[t].spec.argv).Allow?)
    && (t in conn.tasks && conn.tasks[t].Rejected? ==> v != [] && Begun !in v && Ended !in v)
    && (t in conn.tasks && conn.tasks[t].Live? && !conn.tasks[t].alive
        && conn.tasks[t].forwarded == |conn.tasks[t].events| ==>
          |v| >= 2 && v[0] == Begun && v[1] == Ended && Complete(v))
  }

  lemma VerdictFromShape(conn: Conn, t: TaskId)
    requires Shape(conn, t)
    ensures Verdict(conn, t)
  {
    hide Marks, LogsAfterStart, Authorize;
    if t in conn.tasks && conn.tasks[t].Live? {
      var task := conn.tasks[t];
      assert task.events[..|task.events|] == task.events;
    }
  }

  /** One verdict per StartTask: one error and no start, or a start before every log and one exit; a start only of what
      the worker's policy allows. A rejected task has had its error; a task whose process is gone and whose events are
      all passed on has had its start and its exit. */
  lemma OneVerdict(s: Sys, t: TaskId)
    requires Reachable(s) && t in s.placed
    ensures s.placed[t].conn in s.conns && Verdict(s.conns[s.placed[t].conn], t)
  {
    hide Life, Verdict, Shape;
    ReachableLives(s);
    AboutTask(s, t);
    VerdictFromShape(s.conns[s.placed[t].conn], t);
  }

  // ---- Index and table ----

  /** Any run of workers that echo their ids, in any order and with any kills failing. */
  ghost predicate EchoingRun(states: seq<Sys>, steps: seq<Step>) {
    Execution(states, steps) && forall k :: 0 <= k < |steps| ==> Echoing(states[k], steps[k])
  }

  lemma HonestRunEchoes(states: seq<Sys>, steps: seq<Step>)
    requires HonestRun(states, steps)
    ensures EchoingRun(states, steps)
  {
    forall k | 0 <= k < |steps| ensures Echoing(states[k], steps[k]) {
      HonestIsEchoing(states[k], steps[k]);
    }
  }

  lemma {:induction false} TrackedHolds(states: seq<Sys>, steps: seq<Step>, i: nat)
    requires EchoingRun(states, steps) && i <= |steps|
    ensures Tracked(states[i])
  {
    if i > 0 {
      TrackedHolds(states, steps, i - 1);
      assert Next(states[i - 1], steps[i - 1], states[i - 1 + 1]);
      hide Tracked;
      StepKeepsTracked(states[i - 1], steps[i - 1], states[i]);
    }
  }

  /** A state that some such run ends in. */
  ghost predicate EchoReachable(s: Sys) {
    exists states, steps :: EchoingRun(states, steps) && states[|steps|] == s
  }

  lemma EchoReachableIsTracked(s: Sys)
    requires EchoReachable(s)
    ensures Tracked(s)
  {
    var states, steps :| EchoingRun(states, steps) && states[|steps|] == s;
    TrackedHolds(states, steps, |steps|);
  }

  /** In every state, between any two sections: a task is indexed at its own node, and nowhere else, exactly while its
      connection is open, no handler has taken it out to record its end, and its row is unfinished; only while the
      handler of its own start or exit is on the way to the index may that lag behind. */
  lemma IndexedIff(s: Sys, t: TaskId)
    requires EchoReachable(s) && t in s.placed
    ensures s.placed[t].conn in s.conns && t in s.core.rows
    ensures var p, conn := s.placed[t], s.conns[s.placed[t].conn];
      && OnlyAt(s.core.nodes, p, t)
      && (!Moving(conn.cont, t) ==>
            (AtHome(s.core.nodes, p, t)
             <==> conn.open && !Unrecorded(conn.cont, t) && Unfinished(s.core.rows[t].status)))
  {
    hide Tracked, OnlyAt, AtHome, Unrecorded, Moving;
    EchoReachableIsTracked(s);
    AboutLocated(s, t);
  }

  /** No handler is under way. */
  predicate Quiet(s: Sys) {
    forall c :: c in s.conns ==> s.conns[c].cont.Idle? || s.conns[c].cont.Gone?
  }

  ghost function UnfinishedTasks(rows: Rows): set<TaskId> {
    set t | t in rows && Unfinished(rows[t].status)
  }

  lemma QuietTask(s: Sys, t: TaskId)
    requires Tracked(s) && Quiet(s) && t in s.placed
    ensures t in s.core.rows
    ensures AtHome(s.core.nodes, s.placed[t], t) <==> Unfinished(s.core.rows[t].status)
    ensures OnlyAt(s.core.nodes, s.placed[t], t)
    ensures s.core.rows[t].job == s.placed[t].job && s.core.rows[t].node == s.placed[t].node
  {
    hide Tracked, AtHome, OnlyAt, EchoedOnly, InboxOk, TasksOk;
    AboutLocated(s, t);
    AboutLink(s, s.placed[t].conn);
  }

  /** The unfinished rows are exactly what the nodes' indexes hold, each task under one node, with its own job and
      node. */
  ghost predicate Agree(nodes: map<NodeId, Handle>, rows: Rows) {
    && (forall n, t :: n in nodes && t in nodes[n].running ==>
          t in rows && Unfinished(rows[t].status) && rows[t].node == n && rows[t].job == nodes[n].running[t])
    && (forall t :: t in rows && Unfinished(rows[t].status) ==>
          rows[t].node in nodes && t in nodes[rows[t].node].running)
  }

  lemma IndexAgreement(s: Sys)
    requires EchoReachable(s) && Quiet(s)
    ensures Agree(s.core.nodes, s.core.rows)
  {
    hide Tracked, Quiet;
    EchoReachableIsTracked(s);
    TrackedParts(s);
    forall n, t | n in s.core.nodes && t in s.core.nodes[n].running
      ensures t in s.core.rows && Unfinished(s.core.rows[t].status)
      ensures s.core.rows[t].node == n && s.core.rows[t].job == s.core.nodes[n].running[t]
    {
      IndexedIsPlaced(s, n, t);
      QuietTask(s, t);
    }
    forall t | t in s.core.rows && Unfinished(s.core.rows[t].status)
      ensures s.core.rows[t].node in s.core.nodes && t in s.core.nodes[s.core.rows[t].node].running
    {
      QuietTask(s, t);
    }
  }

  /** The per-node counts add up to the number of unfinished rows. */
  lemma CountsAgree(s: Sys)
    requires EchoReachable(s) && Quiet(s)
    ensures RunningTotal(s.core.nodes) == |UnfinishedTasks(s.core.rows)|
  {
    hide EchoReachable, Quiet;
    IndexAgreement(s);
    RunningTotalIsPairs(s.core.nodes);
    PairsOf(UnfinishedTasks(s.core.rows), s.core.rows, Pairs(s.core.nodes));
  }

  lemma {:induction false} PairsOf(tasks: set<TaskId>, rows: Rows, pairs: set<(NodeId, TaskId)>)
    requires tasks <= rows.Keys
    requires forall n, t :: (n, t) in pairs <==> t in tasks && rows[t].node == n
    ensures |pairs| == |tasks|
    decreases tasks
  {
    if tasks == {} {
      forall p ensures p !in pairs {
        assert p == (p.0, p.1);
      }
    } else {
      var t :| t in tasks;
      assert (rows[t].node, t) in pairs;
      PairsOf(tasks - {t}, rows, pairs - {(rows[t].node, t)});
    }
  }

  lemma TargetsOfAgreeing(nodes: map<NodeId, Handle>, rows: Rows, job: JobId)
    requires Agree(nodes, rows)
    ensures forall n, t :: (n, t) in KillTargets(nodes, job) <==>
              t in rows && rows[t].job == job && rows[t].node == n && Unfinished(rows[t].status)
    ensures JobStatus(rows, job).Running? <==> KillTargets(nodes, job) != {}
  {
    assert forall n, t :: (n, t) in KillTargets(nodes, job) <==>
      t in rows && rows[t].job == job && rows[t].node == n && Unfinished(rows[t].status);
    if JobStatus(rows, job).Running? {
      var t :| t in rows && rows[t].job == job && Unfinished(rows[t].status);
      assert (rows[t].node, t) in KillTargets(nodes, job);
    } else {
      forall p ensures p !in KillTargets(nodes, job) {
        assert p == (p.0, p.1);
      }
    }
  }

  /** `kill_job` aims at exactly the job's unfinished tasks, each at its own node, and the job is reported running
      exactly while there is something to kill. */
  lemma KillJobTargetsUnfinished(s: Sys, job: JobId)
    requires EchoReachable(s) && Quiet(s)
    ensures forall n, t :: (n, t) in KillTargets(s.core.nodes, job) <==>
              && t in s.core.rows && s.core.rows[t].job == job && s.core.rows[t].node == n
              && Unfinished(s.core.rows[t].status)
    ensures JobStatus(s.core.rows, job).Running? <==> KillTargets(s.core.nodes, job) != {}
  {
    hide EchoReachable, Quiet, JobStatus, KillTargets;
    IndexAgreement(s);
    TargetsOfAgreeing(s.core.nodes, s.core.rows, job);
  }

  // ---- What the client is told ----

  lemma ExitedRow(s: Sys, e: TaskExited)
    requires Reachable(s) && ExitedEvent(e) in s.core.events
    ensures e.task in s.core.rows && s.core.rows[e.task].status == StatusOf(e)
  {
    hide Life, Exits, Unsent;
    ReachableLives(s);
    AboutHistory(s);
    var i :| 0 <= i < |s.core.events| && s.core.events[i] == ExitedEvent(e);
    OneExitPerTask(s, e.task);
    ExitsFind(s.core.events, e);
  }

  lemma JobRows(s: Sys, r: nat, t: TaskId)
    requires Life(s) && r in s.runs && !s.runs[r].phase.Subscribed?
    ensures t in s.core.rows && s.core.rows[t].job == s.runs[r].job <==> t in Assigned(s.runs[r].assignments)
  {
    hide Life;
    AboutRun(s, r);
    var run := s.runs[r];
    if t in s.core.rows && s.core.rows[t].job == run.job {
      AboutTask(s, t);
      hide Shape, Delivered, EventsOk, StatusOk, IndexOk;
      assert run.assignments[s.placed[t].index].task == t;
    }
    if t in Assigned(run.assignments) {
      var i :| 0 <= i < |run.assignments| && run.assignments[i].task == t;
      assert DispatchOk(s.placed, r, run.job, run.assignments[i], run.dispatch[i], i);
      AboutTask(s, t);
      hide Shape, Delivered, EventsOk, StatusOk, IndexOk, PlaceOk;
    }
  }

  /** The exits a client has collected, one for each of its tasks, tell the status of the job. */
  lemma StatusFromExits(rows: Rows, job: JobId, tasks: set<TaskId>, exits: seq<TaskExited>)
    requires forall t :: t in rows && rows[t].job == job <==> t in tasks
    requires forall i :: 0 <= i < |exits| ==>
               exits[i].task in tasks && exits[i].task in rows && rows[exits[i].task].status == StatusOf(exits[i])
    requires forall t :: t in tasks ==> exists i :: 0 <= i < |exits| && exits[i].task == t
    ensures RowsOf(rows, job) == tasks
    ensures JobStatus(rows, job)
            == if forall i :: 0 <= i < |exits| ==> exits[i].success then Succeeded else Failed
  {
    if i :| 0 <= i < |exits| && !exits[i].success {
      assert rows[exits[i].task].status.Failed?;
    }
  }

  /** When JobFinished is sent, the job's rows are exactly its assignments, and the stored status of the job is what the
      client is told: succeeded iff `success`, else failed, never running. */
  lemma ClientAnswerAgrees(s: Sys, r: nat)
    requires Reachable(s) && r in s.runs && s.runs[r].phase.Finished?
    ensures RowsOf(s.core.rows, s.runs[r].job) == Assigned(s.runs[r].assignments)
    ensures JobStatus(s.core.rows, s.runs[r].job) == if s.runs[r].success then Succeeded else Failed
  {
    hide Life, JobStatus, RowsOf, DispatchesOk, JobOwned, Assigned;
    ReachableLives(s);
    var run := s.runs[r];
    AboutRun(s, r);
    forall t ensures t in s.core.rows && s.core.rows[t].job == run.job <==> t in Assigned(run.assignments) {
      JobRows(s, r, t);
    }
    var exits := run.waiting.exits;
    forall i | 0 <= i < |exits|
      ensures exits[i].task in s.core.rows && s.core.rows[exits[i].task].status == StatusOf(exits[i])
    {
      ExitedRow(s, exits[i]);
    }
    StatusFromExits(s.core.rows, run.job, Assigned(run.assignments), exits);
  }
}
