/** What keeps the per-node index and the table in step, whatever order workers say things in and whenever kills fail:
    a section-level invariant of its own, much weaker in what it asks of workers than the lifecycle. */
module IndexInvariant {
  import opened Protocol
  import opened JobStore
  import opened CoordinatorCore
  import opened Cluster
  import opened Lifecycle
  import opened CoordinatorSteps

  // ---- What is asked of workers ----

  /** The message names only tasks of its own connection, with the ids of their specs; nothing is asked of its order. */
  predicate Echoes(placed: Placed, c: nat, message: WorkerMessage) {
    match message
    case Started(e) => Owns(placed, c, e.job, e.task, e.node)
    case Exited(e) => Owns(placed, c, e.job, e.task, e.node)
    case Error(e) => e.node.Some? && e.task.Some? ==>
                       e.task.value in placed && Owns(placed, c, placed[e.task.value].job, e.task.value, e.node.value)
    case _ => true
  }

  /** The steps the index is kept for: an id registers only while it is absent, and whatever a worker makes up echoes
      its ids. Kills may fail at any time. */
  predicate Echoing(s: Sys, step: Step) {
    match step
    case Wire(Register(_, node, _)) => node !in s.core.nodes
    case Work(c, Forge(forged)) => Echoes(s.placed, c, forged)
    case _ => true
  }

  lemma HonestIsEchoing(s: Sys, step: Step)
    requires Honest(s, step)
    ensures Echoing(s, step)
  {
  }

  // ---- The invariant ----

  predicate EchoedOnly(placed: Placed, c: nat, sent: seq<WorkerMessage>) {
    forall i :: 0 <= i < |sent| ==> Echoes(placed, c, sent[i])
  }

  predicate LinkOk(placed: Placed, core: Core, c: nat, conn: Conn) {
    && ContOk(placed, core.rows, c, conn)
    && (conn.open ==> conn.node in core.nodes && core.nodes[conn.node].conn == c)
    && EchoedOnly(placed, c, conn.sent)
    && InboxOk(placed, c, conn.inbox)
    && TasksOk(placed, c, conn.tasks)
  }

  /** The handler is between storing a start or an exit of `t` and moving `t` in the index. */
  predicate Moving(cont: Cont, t: TaskId) {
    || (cont.IndexStarted? && cont.start.task == t)
    || (cont.UnindexExited? && cont.exit.task == t)
  }

  /** `t` is indexed at its own node, and only there, exactly while its row is unfinished and its connection is open. */
  predicate Located(core: Core, conn: Conn, p: Cluster.Place, t: TaskId) {
    && t in core.rows && core.rows[t].job == p.job && core.rows[t].node == p.node && conn.node == p.node
    && OnlyAt(core.nodes, p, t)
    && (Moving(conn.cont, t)
        || (AtHome(core.nodes, p, t) <==> conn.open && !Unrecorded(conn.cont, t) && Unfinished(core.rows[t].status)))
    && (!conn.open && Unfinished(core.rows[t].status) ==> Unrecorded(conn.cont, t))
  }

  predicate TaskLocated(s: Sys, t: TaskId) {
    t in s.placed && s.placed[t].conn in s.conns && Located(s.core, s.conns[s.placed[t].conn], s.placed[t], t)
  }

  predicate RunPlaced(placed: Placed, r: nat, run: Run) {
    run.phase.Subscribed? || DispatchesOk(placed, r, run.job, run.assignments, run.dispatch)
  }

  predicate LinksOk(s: Sys) {
    forall c :: c in s.conns ==> LinkOk(s.placed, s.core, c, s.conns[c])
  }

  predicate AllLocated(s: Sys) {
    forall t :: t in s.placed ==> TaskLocated(s, t)
  }

  predicate RunsPlaced(s: Sys) {
    forall r :: r in s.runs ==> RunPlaced(s.placed, r, s.runs[r])
  }

  predicate Tracked(s: Sys) {
    NodesOk(s) && HistoryOk(s.placed, s.core) && LinksOk(s) && AllLocated(s) && RunsPlaced(s) && KillsOk(s)
  }

  lemma MakeTracked(s: Sys)
    requires NodesOk(s) && HistoryOk(s.placed, s.core) && KillsOk(s)
    requires forall c :: c in s.conns ==> LinkOk(s.placed, s.core, c, s.conns[c])
    requires forall t :: t in s.placed ==> TaskLocated(s, t)
    requires forall r :: r in s.runs ==> RunPlaced(s.placed, r, s.runs[r])
    ensures Tracked(s)
  {
    hide NodesOk, HistoryOk, KillsOk, LinkOk, TaskLocated, RunPlaced;
  }

  lemma AboutLink(s: Sys, c: nat)
    requires Tracked(s) && c in s.conns
    ensures LinkOk(s.placed, s.core, c, s.conns[c])
  {
    hide NodesOk, HistoryOk, KillsOk, LinkOk, AllLocated, RunsPlaced;
  }

  lemma AboutLocated(s: Sys, t: TaskId)
    requires Tracked(s) && t in s.placed
    ensures TaskLocated(s, t)
  {
    hide NodesOk, HistoryOk, KillsOk, LinksOk, TaskLocated, RunsPlaced;
  }

  lemma AboutPlaced(s: Sys, r: nat)
    requires Tracked(s) && r in s.runs
    ensures RunPlaced(s.placed, r, s.runs[r])
  {
    hide NodesOk, HistoryOk, KillsOk, LinksOk, AllLocated, RunPlaced;
  }

  lemma TrackedParts(s: Sys)
    requires Tracked(s)
    ensures NodesOk(s) && HistoryOk(s.placed, s.core) && KillsOk(s)
  {
    hide NodesOk, HistoryOk, KillsOk, LinksOk, AllLocated, RunsPlaced;
  }

  /** What is indexed is placed there, and its row is there. */
  lemma IndexedIsPlaced(s: Sys, n: NodeId, t: TaskId)
    requires Tracked(s) && n in s.core.nodes && t in s.core.nodes[n].running
    ensures Owns(s.placed, s.core.nodes[n].conn, s.core.nodes[n].running[t], t, n)
  {
    hide Tracked, Unrecorded, AtHome;
    TrackedParts(s);
    assert NodeOk(s.placed, s.conns, n, s.core.nodes[n]);
    AboutLocated(s, t);
  }

  // ---- A step on one connection ----

  predicate SameSpot(core: Core, core': Core, t: TaskId) {
    && t in core.rows && t in core'.rows && core'.rows[t] == core.rows[t]
    && SameIndex(core.nodes, core'.nodes, t)
  }

  ghost predicate SpotsMove(s: Sys, c: nat, core': Core, conn': Conn) {
    forall t :: t in s.placed ==>
      if s.placed[t].conn == c then Located(core', conn', s.placed[t], t) else SameSpot(s.core, core', t)
  }

  /** The handles of other connections stay. */
  predicate OthersStay(nodes: map<NodeId, Handle>, nodes': map<NodeId, Handle>, c: nat) {
    forall n :: n in nodes && nodes[n].conn != c ==> n in nodes' && nodes'[n].conn == nodes[n].conn
  }

  lemma SpotKept(core: Core, core': Core, conn: Conn, p: Cluster.Place, t: TaskId)
    requires Located(core, conn, p, t) && SameSpot(core, core', t)
    ensures Located(core', conn, p, t)
  {
    hide Unrecorded;
  }

  lemma LinkKept(s: Sys, c: nat, core': Core, d: nat)
    requires d in s.conns && d != c && LinkOk(s.placed, s.core, d, s.conns[d])
    requires OthersStay(s.core.nodes, core'.nodes, c)
    requires forall t :: t in s.placed && s.placed[t].conn == d ==> SameSpot(s.core, core', t)
    ensures LinkOk(s.placed, core', d, s.conns[d])
  {
    hide EchoedOnly, InboxOk, TasksOk, SameIndex, RestOk, ThenOk;
  }

  lemma ConnMoves(s: Sys, c: nat, core': Core, conn': Conn)
    requires Tracked(s) && c in s.conns
    requires LinkOk(s.placed, core', c, conn')
    requires OthersStay(s.core.nodes, core'.nodes, c)
    requires NodesOk(WithConn(s, c, conn').(core := core')) && HistoryOk(s.placed, core')
    requires SpotsMove(s, c, core', conn')
    ensures Tracked(WithConn(s, c, conn').(core := core'))
  {
    hide Tracked, LinkOk, Located, SameSpot, OthersStay, RunPlaced, NodesOk, HistoryOk, KillOk;
    var s' := WithConn(s, c, conn').(core := core');
    TrackedParts(s);
    forall d | d in s'.conns ensures LinkOk(s'.placed, s'.core, d, s'.conns[d]) {
      AboutLink(s, d);
      if d != c { LinkKept(s, c, core', d); }
    }
    forall t | t in s'.placed ensures TaskLocated(s', t) {
      AboutLocated(s, t);
      if s.placed[t].conn != c { SpotKept(s.core, core', s.conns[s.placed[t].conn], s.placed[t], t); }
    }
    forall r | r in s'.runs ensures RunPlaced(s'.placed, r, s'.runs[r]) { AboutPlaced(s, r); }
    MakeTracked(s');
  }
}
