/** The coordinator's shared state and the atomic sections of its handlers.

    A handler holds the state lock, a store call or a broadcast one at a time. Each such section is one function here;
    between two sections of one connection any section of another may run. What a handler still has to do is its
    continuation. */
module CoordinatorCore {
  import opened Protocol
  import opened JobStore
  import opened Sequences

  /** `WorkerHandle`: which connection its sender feeds, and the tasks placed on the node. */
  datatype Handle = Handle(conn: nat, running: map<TaskId, JobId>)

  datatype Lease = Lease(nodes: seq<NodeId>, gpusPerNode: Option<nat>, exclusive: bool)

  datatype Core = Core(
    nodes: map<NodeId, Handle>,
    leases: map<LeaseId, Lease>,
    rows: Rows,
    logs: seq<LogLine>,
    events: seq<CoordinatorEvent>)

  function Index(nodes: map<NodeId, Handle>, node: NodeId, task: TaskId, job: JobId): map<NodeId, Handle> {
    if node in nodes then nodes[node := nodes[node].(running := nodes[node].running[task := job])] else nodes
  }

  function Unindex(nodes: map<NodeId, Handle>, node: NodeId, task: TaskId): map<NodeId, Handle> {
    if node in nodes then nodes[node := nodes[node].(running := nodes[node].running - {task})] else nodes
  }

  // ---- Handlers as sections ----

  datatype Then = Return | Report(error: WorkerError) | NextLost(node: NodeId, rest: seq<(TaskId, JobId)>)

  datatype Cont =
    | Idle
    | IndexStarted(start: TaskStarted)
    | UnindexExited(exit: TaskExited)
    | RecordExit(exit: TaskExited, then_: Then)
    | SendExit(exit: TaskExited, then_: Then)
    | SendLast(event: CoordinatorEvent)
    | LogLost(node: NodeId, rest: seq<(TaskId, JobId)>)
    | SendLostLog(node: NodeId, rest: seq<(TaskId, JobId)>, line: LogLine)
    | Gone

  function Resume(t: Then): Cont {
    match t
    case Return => Idle
    case Report(error) => SendLast(ErrorEvent(error))
    case NextLost(node, rest) => LogLost(node, rest)
  }

  function FailedExit(job: JobId, task: TaskId, node: NodeId, now: Time): TaskExited {
    TaskExited(job, task, node, None, false, now)
  }

  /** Taking one message off a connection and running its first section. */
  function Read(core: Core, message: WorkerMessage, now: Time): (Core, Cont) {
    match message
    case Heartbeat(_, _) => (core, Idle)
    case Started(e) => (core.(rows := RowStarted(core.rows, e)), IndexStarted(e))
    case Log(line) => (core.(logs := core.logs + [line]), SendLast(LogEvent(line)))
    case Exited(e) => (core.(rows := RowExited(core.rows, e)), UnindexExited(e))
    case Error(error) =>
      if error.node.Some? && error.task.Some?
         && error.node.value in core.nodes && error.task.value in core.nodes[error.node.value].running
      then
        var node, task := error.node.value, error.task.value;
        (core.(nodes := Unindex(core.nodes, node, task)),
         RecordExit(FailedExit(core.nodes[node].running[task], task, node, now), Report(error)))
      else
        (core, SendLast(ErrorEvent(error)))
  }

  function RunningOn(core: Core, node: NodeId): map<TaskId, JobId> {
    if node in core.nodes then core.nodes[node].running else map[]
  }

  /** `order` lists the entries of `m`, each once: what iterating a hash map gives. */
  ghost predicate Enumerates<K, V>(order: seq<(K, V)>, m: map<K, V>) {
    && (forall i :: 0 <= i < |order| ==> order[i].0 in m && m[order[i].0] == order[i].1)
    && (forall i, j :: 0 <= i < j < |order| ==> order[i].0 != order[j].0)
    && (forall k :: k in m ==> exists i :: 0 <= i < |order| && order[i].0 == k)
  }

  /** The locked section of `mark_node_lost`. */
  function TakeLost(core: Core, node: NodeId, order: seq<(TaskId, JobId)>): (Core, Cont) {
    (core.(nodes := core.nodes - {node}), LogLost(node, order))
  }

  const LostReason := "worker disconnected"

  function LostLine(lost: (TaskId, JobId), node: NodeId, now: Time): LogLine {
    LogLine(lost.1, lost.0, node, System, now, LostReason, 0)
  }

  /** The next section of a handler that is under way. */
  function Advance(core: Core, cont: Cont, now: Time): (Core, Cont) {
    match cont
    case Idle => (core, Idle)
    case IndexStarted(e) => (core.(nodes := Index(core.nodes, e.node, e.task, e.job)), SendLast(StartedEvent(e)))
    case UnindexExited(e) => (core.(nodes := Unindex(core.nodes, e.node, e.task)), SendExit(e, Return))
    case RecordExit(e, t) => (core.(rows := RowExited(core.rows, e)), SendExit(e, t))
    case SendExit(e, t) => (core.(events := core.events + [ExitedEvent(e)]), Resume(t))
    case SendLast(event) => (core.(events := core.events + [event]), Idle)
    case LogLost(node, rest) =>
      if rest == [] then (core, Gone)
      else
        var line := LostLine(rest[0], node, now);
        (core.(logs := core.logs + [line]), SendLostLog(node, rest[1..], line))
    case SendLostLog(node, rest, line) =>
      (core.(events := core.events + [LogEvent(line)]),
       RecordExit(FailedExit(line.job, line.task, node, line.timestamp), NextLost(node, rest)))
    case Gone => (core, Gone)
  }

  function Ahead(t: Then): nat {
    match t
    case Return => 0
    case Report(_) => 1
    case NextLost(_, rest) => 4 * |rest| + 1
  }

  /** How many sections are left. */
  function Rank(cont: Cont): nat {
    match cont
    case Idle => 0
    case Gone => 0
    case SendLast(_) => 1
    case IndexStarted(_) => 2
    case UnindexExited(_) => 2
    case SendExit(_, t) => 1 + Ahead(t)
    case RecordExit(_, t) => 2 + Ahead(t)
    case LogLost(_, rest) => 4 * |rest| + 1
    case SendLostLog(_, rest, _) => 4 * |rest| + 4
  }

  /** Running a handler to its end with nothing in between. */
  function Finish(core: Core, cont: Cont, now: Time): Core
    decreases Rank(cont)
  {
    if Rank(cont) == 0 then core
    else
      var (core', cont') := Advance(core, cont, now);
      Finish(core', cont', now)
  }

  /** The same with a reading of the clock for every section, looked up by how many are left. */
  function FinishBy(core: Core, cont: Cont, clock: nat -> Time): Core
    decreases Rank(cont)
  {
    if Rank(cont) == 0 then core
    else
      var (core', cont') := Advance(core, cont, clock(Rank(cont)));
      FinishBy(core', cont', clock)
  }

  // The whole effect of the handlers of the worker's messages.

  lemma FinishLast(core: Core, event: CoordinatorEvent, now: Time)
    ensures Finish(core, SendLast(event), now) == core.(events := core.events + [event])
  {
    assert Finish(Advance(core, SendLast(event), now).0, Idle, now) == Advance(core, SendLast(event), now).0;
  }

  lemma FinishStarted(core: Core, e: TaskStarted, now: Time)
    ensures Finish(core, IndexStarted(e), now)
            == core.(nodes := Index(core.nodes, e.node, e.task, e.job), events := core.events + [StartedEvent(e)])
  {
    FinishLast(core.(nodes := Index(core.nodes, e.node, e.task, e.job)), StartedEvent(e), now);
  }

  lemma FinishExited(core: Core, e: TaskExited, now: Time)
    ensures Finish(core, UnindexExited(e), now)
            == core.(nodes := Unindex(core.nodes, e.node, e.task), events := core.events + [ExitedEvent(e)])
  {
    var core' := core.(nodes := Unindex(core.nodes, e.node, e.task));
    var last := core'.(events := core'.events + [ExitedEvent(e)]);
    assert Finish(core', SendExit(e, Return), now) == Finish(last, Idle, now) == last;
  }

  lemma FinishError(core: Core, e: TaskExited, error: WorkerError, now: Time)
    ensures Finish(core, RecordExit(e, Report(error)), now)
            == core.(rows := RowExited(core.rows, e), events := core.events + [ExitedEvent(e), ErrorEvent(error)])
  {
    var core1 := core.(rows := RowExited(core.rows, e));
    var core2 := core1.(events := core.events + [ExitedEvent(e)]);
    FinishLast(core2, ErrorEvent(error), now);
    assert Finish(core1, SendExit(e, Report(error)), now) == Finish(core2, SendLast(ErrorEvent(error)), now);
    assert core.events + [ExitedEvent(e)] + [ErrorEvent(error)] == core.events + [ExitedEvent(e), ErrorEvent(error)];
  }

  // ---- Leases ----

  datatype LeaseRequest = LeaseRequest(
    nodes: seq<NodeId>, count: Option<nat>, gpusPerNode: Option<nat>, exclusive: bool)

  /** The requested nodes, or the first `count` connected ones in the map's order. */
  function LeaseNodes(order: seq<NodeId>, request: LeaseRequest): seq<NodeId> {
    if request.nodes != [] then request.nodes
    else
      var asked := if request.count.Some? then request.count.value else |order|;
      FirstN(order, if asked < 1 then 1 else asked)
  }

  predicate Overlaps(a: seq<NodeId>, b: seq<NodeId>) {
    exists n :: n in a && n in b
  }

  predicate Grantable(core: Core, nodes: seq<NodeId>, exclusive: bool) {
    && nodes != []
    && (forall n :: n in nodes ==> n in core.nodes)
    && (forall l :: l in core.leases && Overlaps(nodes, core.leases[l].nodes) ==>
          !core.leases[l].exclusive && !exclusive)
  }

  function LeaseCreated(core: Core, order: seq<NodeId>, request: LeaseRequest, id: LeaseId): Core {
    var nodes := LeaseNodes(order, request);
    if Grantable(core, nodes, request.exclusive) then
      core.(leases := core.leases[id := Lease(nodes, request.gpusPerNode, request.exclusive)])
    else core
  }

  function LeaseReleased(core: Core, id: LeaseId): Core {
    core.(leases := core.leases - {id})
  }

  /** `order` lists the connected nodes, each once. */
  ghost predicate IsNodeOrder(order: seq<NodeId>, nodes: map<NodeId, Handle>) {
    && (forall i, j :: 0 <= i < j < |order| ==> order[i] != order[j])
    && (forall n :: n in order <==> n in nodes)
  }

  lemma {:induction false} NodeOrderSize(order: seq<NodeId>, nodes: map<NodeId, Handle>)
    requires IsNodeOrder(order, nodes)
    ensures |order| == |nodes|
    decreases nodes.Keys
  {
    if order == [] {
      assert nodes.Keys == {};
    } else {
      var last := order[|order| - 1];
      var rest := order[..|order| - 1];
      assert forall n :: n in order <==> n in rest || n == last;
      NodeOrderSize(rest, nodes - {last});
    }
  }

  // ---- Dispatch ----

  datatype RunRequest = RunRequest(
    nodes: seq<NodeId>,
    argv: seq<string>,
    cwd: Option<string>,
    env: map<string, string>,
    nodeEnv: map<NodeId, map<string, string>>,
    lease: Option<LeaseId>,
    timeout: Option<nat>,
    wait: bool)

  datatype Refusal = EmptyArgv | LeaseNotFound | NotInLease

  datatype Selection = Refused(why: Refusal) | Selected(nodes: seq<NodeId>)

  function SelectNodes(core: Core, request: RunRequest, order: seq<NodeId>): Selection {
    if request.argv == [] then Refused(EmptyArgv)
    else if request.lease.Some? && request.lease.value !in core.leases then Refused(LeaseNotFound)
    else
      var chosen :=
        if request.lease.Some? && request.nodes == [] then core.leases[request.lease.value].nodes else request.nodes;
      if request.lease.Some? && exists n :: n in chosen && n !in core.leases[request.lease.value].nodes then
        Refused(NotInLease)
      else
        Selected(if chosen == [] then order else chosen)
  }

  /** The run's environment with the node's own entries written over it. */
  function MergedEnv(request: RunRequest, node: NodeId): map<string, string> {
    if node in request.nodeEnv then request.env + request.nodeEnv[node] else request.env
  }

  function SpecFor(request: RunRequest, job: JobId, task: TaskId, node: NodeId): RunSpec {
    RunSpec(job, task, node, request.argv, if request.cwd.Some? then request.cwd.value else ".",
            MergedEnv(request, node), request.timeout)
  }

  datatype Placement = Placement(
    core: Core, assignments: seq<TaskAssignment>, dispatch: seq<(nat, RunSpec)>, errors: seq<NodeId>)

  function PlaceOne(p: Placement, request: RunRequest, job: JobId, task: TaskId, node: NodeId, now: Time): Placement {
    if node !in p.core.nodes then p.(errors := p.errors + [node])
    else
      Placement(
        p.core.(nodes := Index(p.core.nodes, node, task, job), rows := Dispatched(p.core.rows, job, task, node, now)),
        p.assignments + [TaskAssignment(job, task, node)],
        p.dispatch + [(p.core.nodes[node].conn, SpecFor(request, job, task, node))],
        p.errors)
  }

  /** The dispatch loop over `selected`; `ids` are the task ids it draws, one for each connected position. */
  function PlaceAll(
      core: Core, request: RunRequest, job: JobId, selected: seq<NodeId>, ids: seq<TaskId>, clock: seq<Time>)
    : (p: Placement)
    requires |selected| <= |ids| == |clock|
    ensures |p.assignments| == |p.dispatch| <= |selected|
  {
    if selected == [] then Placement(core, [], [], [])
    else
      var last := |selected| - 1;
      var p := PlaceAll(core, request, job, selected[..last], ids, clock);
      PlaceOne(p, request, job, ids[|p.assignments|], selected[last], clock[|p.assignments|])
  }

  function Connected(nodes: map<NodeId, Handle>, selected: seq<NodeId>): seq<NodeId> {
    if selected == [] then []
    else
      var last := |selected| - 1;
      Connected(nodes, selected[..last]) + (if selected[last] in nodes then [selected[last]] else [])
  }

  function Disconnected(nodes: map<NodeId, Handle>, selected: seq<NodeId>): seq<NodeId> {
    if selected == [] then []
    else
      var last := |selected| - 1;
      Disconnected(nodes, selected[..last]) + (if selected[last] in nodes then [] else [selected[last]])
  }

  lemma {:induction false} ConnectedAreSelected(nodes: map<NodeId, Handle>, selected: seq<NodeId>, n: NodeId)
    ensures n in Connected(nodes, selected) <==> n in selected && n in nodes
  {
    if selected != [] {
      ConnectedAreSelected(nodes, selected[..|selected| - 1], n);
      assert n in selected <==> n in selected[..|selected| - 1] || n == selected[|selected| - 1];
    }
  }

  ghost predicate Distinct<T>(s: seq<T>) {
    forall i, j :: 0 <= i < j < |s| ==> s[i] != s[j]
  }

  /** The (node, task) entries of the index. */
  ghost function Pairs(nodes: map<NodeId, Handle>): set<(NodeId, TaskId)> {
    set n, t | n in nodes && t in nodes[n].running :: (n, t)
  }

  /** The per-node `running_tasks` counts added up. */
  ghost function RunningTotal(nodes: map<NodeId, Handle>): nat
    decreases nodes.Keys
  {
    if nodes == map[] then 0
    else
      var n :| n in nodes;
      |nodes[n].running| + RunningTotal(nodes - {n})
  }

  lemma {:induction false} RunningTotalIsPairs(nodes: map<NodeId, Handle>)
    ensures RunningTotal(nodes) == |Pairs(nodes)|
    decreases nodes.Keys
  {
    if nodes == map[] {
      assert Pairs(nodes) == {};
    } else {
      var n :| n in nodes && RunningTotal(nodes) == |nodes[n].running| + RunningTotal(nodes - {n});
      RunningTotalIsPairs(nodes - {n});
      PairsSplit(nodes, n);
    }
  }

  lemma PairsSplit(nodes: map<NodeId, Handle>, n: NodeId)
    requires n in nodes
    ensures |Pairs(nodes)| == |nodes[n].running| + |Pairs(nodes - {n})|
  {
    var here := set t | t in nodes[n].running :: (n, t);
    assert Pairs(nodes) == here + Pairs(nodes - {n});
    assert here !! Pairs(nodes - {n});
    hide Pairs;
    TaggedSize(n, nodes[n].running.Keys, here);
  }

  lemma {:induction false} TaggedSize(n: NodeId, tasks: set<TaskId>, tagged: set<(NodeId, TaskId)>)
    requires tagged == set t | t in tasks :: (n, t)
    ensures |tagged| == |tasks|
    decreases tasks
  {
    if tasks != {} {
      var t :| t in tasks;
      TaggedSize(n, tasks - {t}, tagged - {(n, t)});
    }
  }

  ghost function QueuedTasks(rows: Rows): set<TaskId> {
    set t | t in rows && rows[t].status.Queued?
  }

  /** What the dispatch loop leaves behind, position by position. */
  lemma {:induction false} PlaceAligned(
      core: Core, request: RunRequest, job: JobId, selected: seq<NodeId>, ids: seq<TaskId>, clock: seq<Time>)
    requires |selected| <= |ids| == |clock|
    ensures var p := PlaceAll(core, request, job, selected, ids, clock);
      && |p.assignments| == |Connected(core.nodes, selected)|
      && p.errors == Disconnected(core.nodes, selected)
      && p.core.nodes.Keys == core.nodes.Keys
      && (forall n :: n in core.nodes ==> p.core.nodes[n].conn == core.nodes[n].conn)
      && p.core.leases == core.leases && p.core.logs == core.logs && p.core.events == core.events
      && (forall i :: 0 <= i < |p.assignments| ==>
            && p.assignments[i] == TaskAssignment(job, ids[i], Connected(core.nodes, selected)[i])
            && p.assignments[i].node in core.nodes
            && p.dispatch[i] ==
                 (core.nodes[p.assignments[i].node].conn, SpecFor(request, job, ids[i], p.assignments[i].node)))
  {
    if selected != [] {
      PlaceAligned(core, request, job, selected[..|selected| - 1], ids, clock);
    }
  }

  // What a dispatch comes to, told from the request.

  /** The spec says what was asked for: the node's own variables stand before those of the whole run. */
  ghost predicate SpecAsks(spec: RunSpec, request: RunRequest, job: JobId, task: TaskId, node: NodeId) {
    && spec.job == job && spec.task == task && spec.node == node
    && spec.argv == request.argv && spec.timeout == request.timeout
    && (request.cwd.Some? ==> spec.cwd == request.cwd.value)
    && (request.cwd.None? ==> spec.cwd == ".")
    && var own := if node in request.nodeEnv then request.nodeEnv[node] else map[];
       && (forall name :: name in spec.env <==> name in own || name in request.env)
       && (forall name :: name in spec.env ==>
             spec.env[name] == if name in own then own[name] else request.env[name])
  }

  function ConnectedFlags(nodes: map<NodeId, Handle>, wanted: seq<NodeId>): seq<bool> {
    seq(|wanted|, i requires 0 <= i < |wanted| => wanted[i] in nodes)
  }

  function DisconnectedFlags(nodes: map<NodeId, Handle>, wanted: seq<NodeId>): seq<bool> {
    seq(|wanted|, i requires 0 <= i < |wanted| => wanted[i] !in nodes)
  }

  function NodesOfAll(assignments: seq<TaskAssignment>): seq<NodeId> {
    seq(|assignments|, i requires 0 <= i < |assignments| => assignments[i].node)
  }

  /** The assignments are at the connected ones of `wanted`, in order, each with the next id and what was asked for, on
      its node's connection; the errors are at the others, in order. */
  ghost predicate DispatchesTo(
      nodes: map<NodeId, Handle>, request: RunRequest, job: JobId, wanted: seq<NodeId>, ids: seq<TaskId>,
      assignments: seq<TaskAssignment>, dispatch: seq<(nat, RunSpec)>, errors: seq<NodeId>)
  {
    && (exists ks: seq<nat> :: Picks(NodesOfAll(assignments), wanted, ConnectedFlags(nodes, wanted), ks))
    && (exists ks: seq<nat> :: Picks(errors, wanted, DisconnectedFlags(nodes, wanted), ks))
    && |assignments| == |dispatch| <= |ids|
    && (forall i :: 0 <= i < |assignments| ==>
          && assignments[i].job == job && assignments[i].task == ids[i] && assignments[i].node in nodes
          && dispatch[i].0 == nodes[assignments[i].node].conn
          && SpecAsks(dispatch[i].1, request, job, ids[i], assignments[i].node))
  }

  lemma {:induction false} ConnectedPositions(nodes: map<NodeId, Handle>, wanted: seq<NodeId>)
    returns (ks: seq<nat>, others: seq<nat>)
    ensures Picks(Connected(nodes, wanted), wanted, ConnectedFlags(nodes, wanted), ks)
    ensures Picks(Disconnected(nodes, wanted), wanted, DisconnectedFlags(nodes, wanted), others)
  {
    hide Picks;
    if wanted == [] {
      PicksNothing<NodeId>();
      ks, others := [], [];
      assert ConnectedFlags(nodes, wanted) == [] && DisconnectedFlags(nodes, wanted) == [];
    } else {
      var n := |wanted| - 1;
      var before, here := wanted[..n], wanted[n] in nodes;
      ks, others := ConnectedPositions(nodes, before);
      PicksLast(Connected(nodes, before), before, wanted[n], ConnectedFlags(nodes, before), here, ks);
      PicksLast(Disconnected(nodes, before), before, wanted[n], DisconnectedFlags(nodes, before), !here, others);
      assert wanted == before + [wanted[n]];
      assert ConnectedFlags(nodes, wanted) == ConnectedFlags(nodes, before) + [here];
      assert DisconnectedFlags(nodes, wanted) == DisconnectedFlags(nodes, before) + [!here];
      ks, others := ks + (if here then [n] else []), others + (if !here then [n] else []);
    }
  }

  lemma SpecForAsks(request: RunRequest, job: JobId, task: TaskId, node: NodeId)
    ensures SpecAsks(SpecFor(request, job, task, node), request, job, task, node)
  {
  }

  /** The dispatch loop does what was asked for, whatever is selected. */
  lemma PlacingAsRequested(
      core: Core, request: RunRequest, job: JobId, selected: seq<NodeId>, ids: seq<TaskId>, clock: seq<Time>)
    requires |selected| <= |ids| == |clock|
    ensures var p := PlaceAll(core, request, job, selected, ids, clock);
      DispatchesTo(core.nodes, request, job, selected, ids, p.assignments, p.dispatch, p.errors)
  {
    PlaceAligned(core, request, job, selected, ids, clock);
    var p := PlaceAll(core, request, job, selected, ids, clock);
    var ks, others := ConnectedPositions(core.nodes, selected);
    hide Connected, Disconnected, PlaceAll, Picks, SpecAsks, SpecFor;
    assert NodesOfAll(p.assignments) == Connected(core.nodes, selected);
    forall i | 0 <= i < |p.assignments|
      ensures SpecAsks(p.dispatch[i].1, request, job, ids[i], p.assignments[i].node)
    {
      SpecForAsks(request, job, ids[i], p.assignments[i].node);
    }
  }

  /** The task ids are new to the table and to the index, and pairwise different. */
  ghost predicate FreshIds(core: Core, ids: seq<TaskId>) {
    && Distinct(ids)
    && (forall i :: 0 <= i < |ids| ==> ids[i] !in core.rows)
    && (forall i, n :: 0 <= i < |ids| && n in core.nodes ==> ids[i] !in core.nodes[n].running)
  }

  lemma PlaceOneRows(p: Placement, request: RunRequest, job: JobId, task: TaskId, node: NodeId, now: Time, t: TaskId)
    ensures var p' := PlaceOne(p, request, job, task, node, now);
      && |p'.assignments| == |p.assignments| + (if node in p.core.nodes then 1 else 0)
      && (t in p'.core.rows <==> t in p.core.rows || (node in p.core.nodes && t == task))
      && (t in p.core.rows && t != task ==> p'.core.rows[t] == p.core.rows[t])
  {
  }

  /** With fresh ids the table gains rows for exactly the ids drawn, and no other row changes. */
  lemma {:induction false} PlaceRows(
      core: Core, request: RunRequest, job: JobId, selected: seq<NodeId>, ids: seq<TaskId>, clock: seq<Time>, t: TaskId)
    requires |selected| <= |ids| == |clock| && FreshIds(core, ids)
    ensures var p := PlaceAll(core, request, job, selected, ids, clock);
      && (t in p.core.rows <==> t in core.rows || t in ids[..|p.assignments|])
      && (t in core.rows ==> p.core.rows[t] == core.rows[t])
  {
    hide PlaceOne;
    if selected != [] {
      var last := |selected| - 1;
      PlaceRows(core, request, job, selected[..last], ids, clock, t);
      var q := PlaceAll(core, request, job, selected[..last], ids, clock);
      var k := |q.assignments|;
      PlaceOneRows(q, request, job, ids[k], selected[last], clock[k], t);
      assert ids[..k + 1] == ids[..k] + [ids[k]];
    }
  }

  /** The row of each assignment is queued, at the assignment's node, under the job. */
  lemma {:induction false} PlacedRow(
      core: Core, request: RunRequest, job: JobId, selected: seq<NodeId>, ids: seq<TaskId>, clock: seq<Time>, i: nat)
    requires |selected| <= |ids| == |clock| && FreshIds(core, ids)
    requires i < |PlaceAll(core, request, job, selected, ids, clock).assignments|
    ensures var p := PlaceAll(core, request, job, selected, ids, clock);
      && ids[i] in p.core.rows
      && p.core.rows[ids[i]] == Row(job, p.assignments[i].node, Queued, Some(clock[i]), None, None, None)
  {
    var last := |selected| - 1;
    var q := PlaceAll(core, request, job, selected[..last], ids, clock);
    if i < |q.assignments| {
      PlacedRow(core, request, job, selected[..last], ids, clock, i);
    } else {
      PlaceRows(core, request, job, selected[..last], ids, clock, ids[i]);
      assert ids[i] !in ids[..i];
    }
  }

  /** The index gains exactly the assignments, each at its node and under the job. */
  lemma {:induction false} PlaceIndex(
      core: Core, request: RunRequest, job: JobId, selected: seq<NodeId>, ids: seq<TaskId>, clock: seq<Time>,
      n: NodeId, t: TaskId)
    requires |selected| <= |ids| == |clock| && FreshIds(core, ids) && n in core.nodes
    ensures var p := PlaceAll(core, request, job, selected, ids, clock);
      && p.core.nodes.Keys == core.nodes.Keys
      && (t in p.core.nodes[n].running
          <==> t in core.nodes[n].running || TaskAssignment(job, t, n) in p.assignments)
      && (t in p.core.nodes[n].running ==>
            p.core.nodes[n].running[t] == if t in core.nodes[n].running then core.nodes[n].running[t] else job)
  {
    if selected != [] {
      PlaceIndex(core, request, job, selected[..|selected| - 1], ids, clock, n, t);
    }
  }

  lemma IndexAddsPair(nodes: map<NodeId, Handle>, node: NodeId, task: TaskId, job: JobId)
    requires node in nodes
    ensures Pairs(Index(nodes, node, task, job)) == Pairs(nodes) + {(node, task)}
  {
  }

  /** Dispatch accounting: the cluster's running count and the store's queued rows both grow by the number of
      assignments, and every other position is one error. */
  lemma DispatchAccounting(
      core: Core, request: RunRequest, job: JobId, selected: seq<NodeId>, ids: seq<TaskId>, clock: seq<Time>)
    requires |selected| <= |ids| == |clock| && FreshIds(core, ids)
    ensures var p := PlaceAll(core, request, job, selected, ids, clock);
      && |p.assignments| + |p.errors| == |selected|
      && RunningTotal(p.core.nodes) == RunningTotal(core.nodes) + |p.assignments|
      && |QueuedTasks(p.core.rows)| == |QueuedTasks(core.rows)| + |p.assignments|
  {
    RunningTotalIsPairs(core.nodes);
    RunningTotalIsPairs(PlaceAll(core, request, job, selected, ids, clock).core.nodes);
    DispatchCounts(core, request, job, selected, ids, clock);
  }

  lemma {:induction false} DispatchCounts(
      core: Core, request: RunRequest, job: JobId, selected: seq<NodeId>, ids: seq<TaskId>, clock: seq<Time>)
    requires |selected| <= |ids| == |clock| && FreshIds(core, ids)
    ensures var p := PlaceAll(core, request, job, selected, ids, clock);
      && |p.assignments| + |p.errors| == |selected|
      && |Pairs(p.core.nodes)| == |Pairs(core.nodes)| + |p.assignments|
      && |QueuedTasks(p.core.rows)| == |QueuedTasks(core.rows)| + |p.assignments|
  {
    if selected != [] {
      var last := |selected| - 1;
      DispatchCounts(core, request, job, selected[..last], ids, clock);
      OneMorePlaced(core, request, job, selected[..last], selected[last], ids, clock);
    }
  }

  lemma NextIdIsUnused(
      core: Core, request: RunRequest, job: JobId, selected: seq<NodeId>, ids: seq<TaskId>, clock: seq<Time>, n: NodeId)
    requires |selected| < |ids| == |clock| && FreshIds(core, ids) && n in core.nodes
    ensures var q := PlaceAll(core, request, job, selected, ids, clock);
      && n in q.core.nodes
      && ids[|q.assignments|] !in q.core.rows
      && ids[|q.assignments|] !in q.core.nodes[n].running
  {
    var q := PlaceAll(core, request, job, selected, ids, clock);
    var task := ids[|q.assignments|];
    PlaceRows(core, request, job, selected, ids, clock, task);
    PlaceAligned(core, request, job, selected, ids, clock);
    PlaceIndex(core, request, job, selected, ids, clock, n, task);
    assert task !in ids[..|q.assignments|];
    assert TaskAssignment(job, task, n) !in q.assignments;
  }

  lemma OneMorePlaced(
      core: Core, request: RunRequest, job: JobId, selected: seq<NodeId>, node: NodeId, ids: seq<TaskId>,
      clock: seq<Time>)
    requires |selected| < |ids| == |clock| && FreshIds(core, ids)
    ensures var q := PlaceAll(core, request, job, selected, ids, clock);
      var p := PlaceOne(q, request, job, ids[|q.assignments|], node, clock[|q.assignments|]);
      && |p.assignments| + |p.errors| == |q.assignments| + |q.errors| + 1
      && |Pairs(p.core.nodes)| == |Pairs(q.core.nodes)| + |p.assignments| - |q.assignments|
      && |QueuedTasks(p.core.rows)| == |QueuedTasks(q.core.rows)| + |p.assignments| - |q.assignments|
  {
    var q := PlaceAll(core, request, job, selected, ids, clock);
    var task := ids[|q.assignments|];
    if node in q.core.nodes {
      assert node in core.nodes by { PlaceAligned(core, request, job, selected, ids, clock); }
      NextIdIsUnused(core, request, job, selected, ids, clock, node);
      IndexAddsPair(q.core.nodes, node, task, job);
      DispatchedAddsQueued(q.core.rows, job, task, node, clock[|q.assignments|]);
    }
  }

  lemma DispatchedAddsQueued(rows: Rows, job: JobId, task: TaskId, node: NodeId, now: Time)
    requires task !in rows
    ensures QueuedTasks(Dispatched(rows, job, task, node, now)) == QueuedTasks(rows) + {task}
  {
  }

  // ---- Kill ----

  /** Everything `kill_job` sends a KillTask for. */
  ghost function KillTargets(nodes: map<NodeId, Handle>, job: JobId): set<(NodeId, TaskId)> {
    set n, t | n in nodes && t in nodes[n].running && nodes[n].running[t] == job :: (n, t)
  }
}
