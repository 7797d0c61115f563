/** The coordinator's state as one object, with its handlers updating it in place. Readings of the clock are arguments,
    and so are fresh ids. Hash maps are walked in an arbitrary order, which is returned as ghost. */
module Coordinator {
  import opened Protocol
  import opened JobStore
  import opened CoordinatorCore

  datatype LeaseOutcome =
    | NoNodes
    | NotConnected(node: NodeId)
    | Conflict(lease: LeaseId)
    | Granted(granted: Lease)

  datatype RunOutcome =
    | RunRefused(why: Refusal)
    | NothingMatched
    | RunStarted(assignments: seq<TaskAssignment>)

  /** A message handled from start to end with nothing in between. */
  function Handled(core: Core, message: WorkerMessage, now: Protocol.Time): Core {
    var (core', cont) := Read(core, message, now);
    Finish(core', cont, now)
  }

  /** An error that names an indexed task ends it: the task leaves the index, its row fails without an exit code, and
      its exit goes out before the error. Any other error only goes out. */
  predicate ErrorHandled(before: Core, after: Core, error: WorkerError, now: Protocol.Time) {
    if error.node.Some? && error.task.Some? && error.node.value in before.nodes
       && error.task.value in before.nodes[error.node.value].running
    then
      var node, task := error.node.value, error.task.value;
      var exit := TaskExited(before.nodes[node].running[task], task, node, None, false, now);
      && after.nodes == Unindex(before.nodes, node, task) && after.rows == RowExited(before.rows, exit)
      && after.events == before.events + [ExitedEvent(exit), ErrorEvent(error)]
    else
      after == before.(events := before.events + [ErrorEvent(error)])
  }

  class AppState {
    var nodes: map<NodeId, Handle>
    var leases: map<LeaseId, Lease>
    const store: SqliteJobStore
    var events: seq<CoordinatorEvent>

    constructor (store: SqliteJobStore)
      ensures this.store == store
      ensures State() == Core(map[], map[], store.tasks, store.logs, [])
    {
      nodes, leases, events := map[], map[], [];
      this.store := store;
    }

    function State(): Core
      reads this, store
    {
      Core(nodes, leases, store.tasks, store.logs, events)
    }

    method Register(conn: nat, node: NodeId)
      modifies this`nodes
      ensures State() == old(State()).(nodes := old(nodes)[node := Handle(conn, map[])])
    {
      nodes := nodes[node := Handle(conn, map[])];
    }

    method Send(event: CoordinatorEvent)
      modifies this`events
      ensures events == old(events) + [event]
    {
      events := events + [event];
    }

    method Insert(node: NodeId, task: TaskId, job: JobId)
      modifies this`nodes
      ensures nodes == Index(old(nodes), node, task, job)
    {
      if node in nodes {
        nodes := nodes[node := nodes[node].(running := nodes[node].running[task := job])];
      }
    }

    /** Takes `task` out of the node's index and returns its job. */
    method Remove(node: NodeId, task: TaskId) returns (job: Option<JobId>)
      modifies this`nodes
      ensures nodes == Unindex(old(nodes), node, task)
      ensures job == if node in old(nodes) && task in old(nodes)[node].running
                     then Some(old(nodes)[node].running[task]) else None
    {
      job := None;
      if node in nodes {
        var running := nodes[node].running;
        if task in running { job := Some(running[task]); }
        nodes := nodes[node := nodes[node].(running := running - {task})];
      }
    }

    /** One turn of the loop of `handle_worker`. */
    method HandleMessage(message: WorkerMessage, now: Protocol.Time)
      modifies this, store
      ensures State() == Handled(old(State()), message, now)
      ensures leases == old(leases)
      ensures message.Heartbeat? ==> State() == old(State())
      ensures message.Started? ==>
                && store.tasks == RowStarted(old(store.tasks), message.started)
                && nodes == Index(old(nodes), message.started.node, message.started.task, message.started.job)
                && events == old(events) + [StartedEvent(message.started)]
      ensures message.Log? ==>
                && store.logs == old(store.logs) + [message.log]
                && events == old(events) + [LogEvent(message.log)]
                && store.tasks == old(store.tasks) && nodes == old(nodes)
      ensures !message.Log? ==> store.logs == old(store.logs)
      ensures message.Exited? ==>
                && store.tasks == RowExited(old(store.tasks), message.exited)
                && nodes == Unindex(old(nodes), message.exited.node, message.exited.task)
                && events == old(events) + [ExitedEvent(message.exited)]
      ensures message.Error? ==> ErrorHandled(old(State()), State(), message.error, now)
    {
      ghost var core1 := Read(State(), message, now).0;
      match message
      case Heartbeat(_, _) =>
      case Started(e) =>
        store.RecordTaskStarted(e);
        Insert(e.node, e.task, e.job);
        Send(StartedEvent(e));
        FinishStarted(core1, e, now);
      case Log(line) =>
        store.RecordLogLine(line);
        Send(LogEvent(line));
        FinishLast(core1, LogEvent(line), now);
      case Exited(e) =>
        store.RecordTaskExited(e);
        var _ := Remove(e.node, e.task);
        Send(ExitedEvent(e));
        FinishExited(core1, e, now);
      case Error(error) =>
        RecordWorkerErrorExit(error, now);
        Send(ErrorEvent(error));
    }

    /** Together with the error event that follows it, this handles the error. */
    method RecordWorkerErrorExit(error: WorkerError, now: Protocol.Time)
      modifies this, store
      ensures State().(events := State().events + [ErrorEvent(error)]) == Handled(old(State()), Error(error), now)
      ensures leases == old(leases) && store.logs == old(store.logs)
      ensures ErrorHandled(old(State()), State().(events := State().events + [ErrorEvent(error)]), error, now)
    {
      ghost var (core1, cont1) := Read(State(), Error(error), now);
      if error.node.None? || error.task.None? || error.node.value !in nodes {
        FinishLast(core1, ErrorEvent(error), now);
        return;
      }
      var node, task := error.node.value, error.task.value;
      ghost var same := nodes;
      var job := Remove(node, task);
      if job.None? {
        assert same[node].running - {task} == same[node].running;
        assert nodes == same;
        FinishLast(core1, ErrorEvent(error), now);
        return;
      }
      var event := FailedExit(job.value, task, node, now);
      store.RecordTaskExited(event);
      FinishError(core1, event, error, now);
      label Before:
      Send(ExitedEvent(event));
      assert events + [ErrorEvent(error)] == old@Before(events) + [ExitedEvent(event), ErrorEvent(error)];
    }

    /** The body of the loop of `mark_node_lost`. */
    method ReportLost(node: NodeId, lost: (TaskId, JobId), now: Protocol.Time)
      modifies this, store
      ensures var line, exit := LostLine(lost, node, now), FailedExit(lost.1, lost.0, node, now);
        State() == old(State()).(
          rows := RowExited(old(State()).rows, exit), logs := old(State()).logs + [line],
          events := old(State()).events + [LogEvent(line)] + [ExitedEvent(exit)])
    {
      var line := LogLine(lost.1, lost.0, node, System, now, LostReason, 0);
      store.RecordLogLine(line);
      Send(LogEvent(line));
      var event := FailedExit(lost.1, lost.0, node, now);
      store.RecordTaskExited(event);
      Send(ExitedEvent(event));
    }

    /** Removes the node, then reports each of its tasks as failed, at a time of its own. */
    method MarkNodeLost(node: NodeId, clock: nat -> Protocol.Time) returns (ghost order: seq<(TaskId, JobId)>)
      modifies this, store
      ensures Enumerates(order, RunningOn(old(State()), node))
      ensures var (core', cont') := TakeLost(old(State()), node, order);
        State() == FinishBy(core', cont', clock)
    {
      var running := if node in nodes then nodes[node].running else map[];
      var lost := ListEntries(running);
      order := lost;
      hide FinishBy, RowExited, FailedExit, LostLine, Rank, Enumerates;
      nodes := nodes - {node};
      ghost var core' := State();
      assert core' == TakeLost(old(State()), node, order).0;
      var i := 0;
      while i < |lost|
        invariant i <= |lost|
        invariant FinishBy(State(), LogLost(node, lost[i..]), clock) == FinishBy(core', LogLost(node, lost), clock)
      {
        FinishLostTask(State(), node, lost[i..], clock);
        ReportLost(node, lost[i], clock(Rank(LogLost(node, lost[i..]))));
        assert lost[i..][1..] == lost[i + 1..];
        i := i + 1;
      }
      assert lost[i..] == [];
      NothingLost(State(), node, clock);
    }

    /** `kill_job` up to its sends: which connection is asked to kill which task. */
    method KillJob(job: JobId) returns (dispatch: seq<(nat, TaskId)>, ghost targets: seq<(NodeId, TaskId)>)
      ensures forall c, t :: (c, t) in dispatch <==>
                exists n :: n in nodes && (n, t) in KillTargets(nodes, job) && nodes[n].conn == c
      ensures |dispatch| == |targets| && Distinct(targets)
      ensures forall n, t :: (n, t) in targets <==> (n, t) in KillTargets(nodes, job)
      ensures forall i :: 0 <= i < |targets| ==>
                targets[i].0 in nodes && dispatch[i] == (nodes[targets[i].0].conn, targets[i].1)
    {
      dispatch, targets := [], [];
      var left := nodes.Keys;
      while left != {}
        invariant left <= nodes.Keys
        invariant |dispatch| == |targets| && Distinct(targets)
        invariant forall n, t :: (n, t) in targets <==> n !in left && (n, t) in KillTargets(nodes, job)
        invariant forall i :: 0 <= i < |targets| ==>
                    targets[i].0 in nodes && dispatch[i] == (nodes[targets[i].0].conn, targets[i].1)
        decreases left
      {
        var n :| n in left;
        left := left - {n};
        var running := nodes[n].running;
        var tasks := set t | t in running && running[t] == job;
        ghost var before := targets;
        ghost var all := tasks;
        while tasks != {}
          invariant tasks <= all
          invariant |dispatch| == |targets| && Distinct(targets)
          invariant forall m, t :: (m, t) in targets <==> (m, t) in before || (m == n && t in all - tasks)
          invariant forall i :: 0 <= i < |targets| ==>
                      targets[i].0 in nodes && dispatch[i] == (nodes[targets[i].0].conn, targets[i].1)
          decreases tasks
        {
          var t :| t in tasks;
          tasks := tasks - {t};
          dispatch := dispatch + [(nodes[n].conn, t)];
          targets := targets + [(n, t)];
        }
      }
      KillsByConnection(nodes, job, dispatch, targets);
    }

    /** `create_lease`: the checks in the order the program makes them. */
    method CreateLease(request: LeaseRequest, id: LeaseId) returns (outcome: LeaseOutcome, ghost order: seq<NodeId>)
      modifies this`leases
      ensures IsNodeOrder(order, nodes)
      ensures State() == LeaseCreated(old(State()), order, request, id)
      ensures outcome.Granted? <==> Grantable(old(State()), LeaseNodes(order, request), request.exclusive)
      ensures outcome.Granted? ==>
                outcome.granted == Lease(LeaseNodes(order, request), request.gpusPerNode, request.exclusive)
      ensures outcome.Granted? ==> leases == old(leases)[id := outcome.granted]
      ensures !outcome.Granted? ==> leases == old(leases)
      ensures request.nodes != [] ==> LeaseNodes(order, request) == request.nodes
      ensures outcome.NotConnected? <==>
                LeaseNodes(order, request) != [] && exists n :: n in LeaseNodes(order, request) && n !in nodes
      ensures outcome.Conflict? <==>
                && LeaseNodes(order, request) != [] && (forall n :: n in LeaseNodes(order, request) ==> n in nodes)
                && exists l, n :: l in old(leases) && n in LeaseNodes(order, request) && n in old(leases)[l].nodes
                     && (old(leases)[l].exclusive || request.exclusive)
      ensures outcome.NoNodes? <==> LeaseNodes(order, request) == []
      ensures outcome.NotConnected? ==> outcome.node in request.nodes && outcome.node !in nodes
      ensures outcome.Conflict? ==>
                && outcome.lease in old(leases)
                && Overlaps(LeaseNodes(order, request), old(leases)[outcome.lease].nodes)
                && (old(leases)[outcome.lease].exclusive || request.exclusive)
    {
      var names := ListKeys(nodes);
      order := names;
      var selected := request.nodes;
      if selected == [] {
        var asked := if request.count.Some? then request.count.value else |names|;
        selected := FirstN(names, if asked < 1 then 1 else asked);
      }
      if selected == [] {
        return NoNodes, order;
      }
      for i := 0 to |selected|
        invariant forall k :: 0 <= k < i ==> selected[k] in nodes
      {
        if selected[i] !in nodes {
          assert selected == request.nodes;
          return NotConnected(selected[i]), order;
        }
      }
      var left := leases.Keys;
      while left != {}
        invariant left <= leases.Keys
        invariant forall l :: l in leases && l !in left && Overlaps(selected, leases[l].nodes) ==>
                    !leases[l].exclusive && !request.exclusive
        decreases left
      {
        var l :| l in left;
        left := left - {l};
        var overlaps := exists n :: n in selected && n in leases[l].nodes;
        if overlaps && (leases[l].exclusive || request.exclusive) {
          return Conflict(l), order;
        }
      }
      leases := leases[id := Lease(selected, request.gpusPerNode, request.exclusive)];
      return Granted(Lease(selected, request.gpusPerNode, request.exclusive)), order;
    }

    method ReleaseLease(id: LeaseId) returns (removed: bool)
      modifies this`leases
      ensures removed <==> id in old(leases)
      ensures id !in leases && forall l :: l != id ==>
                (l in leases <==> l in old(leases)) && (l in leases ==> leases[l] == old(leases)[l])
      ensures State() == LeaseReleased(old(State()), id)
    {
      removed := id in leases;
      leases := leases - {id};
    }

    /** The dispatch loop: one task on each selected node that is connected. */
    method PlaceTasks(
        request: RunRequest, job: JobId, selected: seq<NodeId>, ids: seq<TaskId>, clock: seq<Protocol.Time>)
      returns (assignments: seq<TaskAssignment>, dispatch: seq<(nat, RunSpec)>, errors: seq<NodeId>)
      requires |selected| <= |ids| == |clock|
      modifies this, store
      ensures Placement(State(), assignments, dispatch, errors)
              == PlaceAll(old(State()), request, job, selected, ids, clock)
    {
      dispatch, errors := [], [];
      assignments := [];
      assert selected[..0] == [];
      for i := 0 to |selected|
        invariant Placement(State(), assignments, dispatch, errors)
                  == PlaceAll(old(State()), request, job, selected[..i], ids, clock)
      {
        assert selected[..i + 1][..i] == selected[..i];
        var node := selected[i];
        if node !in nodes {
          errors := errors + [node];
        } else {
          var task := ids[|assignments|];
          var env := request.env;
          if node in request.nodeEnv {
            env := env + request.nodeEnv[node];
          }
          var cwd := if request.cwd.Some? then request.cwd.value else ".";
          store.RecordTaskDispatched(job, task, node, clock[|assignments|]);
          var spec := RunSpec(job, task, node, request.argv, cwd, env, request.timeout);
          dispatch := dispatch + [(nodes[node].conn, spec)];
          Insert(node, task, job);
          assignments := assignments + [TaskAssignment(job, task, node)];
        }
      }
      assert selected[..|selected|] == selected;
    }

    /** `run_process` under the state lock: choosing the nodes and placing one task on each connected one. */
    method RunProcess(request: RunRequest, job: JobId, ids: seq<TaskId>, clock: seq<Protocol.Time>)
      returns (outcome: RunOutcome, dispatch: seq<(nat, RunSpec)>, errors: seq<NodeId>, ghost order: seq<NodeId>,
        ghost wanted: seq<NodeId>)
      requires |request.nodes| <= |ids| == |clock| && |nodes| <= |ids|
      requires forall l :: l in leases ==> |leases[l].nodes| <= |ids|
      modifies this, store
      ensures IsNodeOrder(order, old(nodes))
      ensures match SelectNodes(old(State()), request, order)
        case Refused(why) =>
          outcome == RunRefused(why) && dispatch == [] && errors == [] && State() == old(State())
        case Selected(selected) =>
          |selected| <= |ids| == |clock| &&
          var p := PlaceAll(old(State()), request, job, selected, ids, clock);
          && State() == p.core && dispatch == p.dispatch && errors == p.errors
          && outcome == if p.assignments == [] then NothingMatched else RunStarted(p.assignments)
      ensures outcome == RunRefused(EmptyArgv) <==> request.argv == []
      ensures outcome == RunRefused(LeaseNotFound) <==>
                request.argv != [] && request.lease.Some? && request.lease.value !in old(leases)
      ensures outcome == RunRefused(NotInLease) <==>
                && request.argv != [] && request.lease.Some? && request.lease.value in old(leases)
                && exists n :: n in request.nodes && n !in old(leases)[request.lease.value].nodes
      ensures request.nodes != [] ==> wanted == request.nodes
      ensures request.nodes == [] && request.lease.None? ==> wanted == order
      ensures request.nodes == [] && request.lease.Some? && request.lease.value in old(leases) ==>
                var leased := old(leases)[request.lease.value].nodes;
                wanted == if leased != [] then leased else order
      ensures !outcome.RunRefused? ==>
                var assignments := if outcome.RunStarted? then outcome.assignments else [];
                && DispatchesTo(old(nodes), request, job, wanted, ids, assignments, dispatch, errors)
                && |wanted| <= |ids| && State() == PlaceAll(old(State()), request, job, wanted, ids, clock).core
                && (outcome.RunStarted? <==> assignments != [])
    {
      var names := ListKeys(nodes);
      NodeOrderSize(names, nodes);
      order, dispatch, errors := names, [], [];
      wanted := if request.nodes != [] then request.nodes
        else if request.lease.Some? && request.lease.value in leases && leases[request.lease.value].nodes != [] then
          leases[request.lease.value].nodes
        else names;
      if request.argv == [] {
        return RunRefused(EmptyArgv), dispatch, errors, order, wanted;
      }
      var selected := request.nodes;
      if request.lease.Some? {
        if request.lease.value !in leases {
          return RunRefused(LeaseNotFound), dispatch, errors, order, wanted;
        }
        var lease := leases[request.lease.value];
        if selected == [] {
          selected := lease.nodes;
        } else if exists n :: n in selected && n !in lease.nodes {
          return RunRefused(NotInLease), dispatch, errors, order, wanted;
        }
      }
      if selected == [] {
        selected := names;
      }
      assert SelectNodes(old(State()), request, order) == Selected(selected);
      assert selected == wanted;
      PlacingAsRequested(State(), request, job, selected, ids, clock);
      hide SelectNodes, DispatchesTo, PlaceAll;
      var assignments;
      assignments, dispatch, errors := PlaceTasks(request, job, selected, ids, clock);
      outcome := if assignments == [] then NothingMatched else RunStarted(assignments);
    }
  }

  lemma KillsByConnection(
      nodes: map<NodeId, Handle>, job: JobId, dispatch: seq<(nat, TaskId)>, targets: seq<(NodeId, TaskId)>)
    requires |dispatch| == |targets|
    requires forall n, t :: (n, t) in targets <==> (n, t) in KillTargets(nodes, job)
    requires forall i :: 0 <= i < |targets| ==>
               targets[i].0 in nodes && dispatch[i] == (nodes[targets[i].0].conn, targets[i].1)
    ensures forall c, t :: (c, t) in dispatch <==>
              exists n :: n in nodes && (n, t) in KillTargets(nodes, job) && nodes[n].conn == c
  {
    hide KillTargets;
    forall c, t | (c, t) in dispatch
      ensures exists n :: n in nodes && (n, t) in KillTargets(nodes, job) && nodes[n].conn == c
    {
      var i :| 0 <= i < |dispatch| && dispatch[i] == (c, t);
      assert (targets[i].0, t) == targets[i];
    }
    forall n, t | (n, t) in KillTargets(nodes, job) ensures n in nodes && (nodes[n].conn, t) in dispatch {
      assert (n, t) in targets;
      var i :| 0 <= i < |targets| && targets[i] == (n, t);
      assert dispatch[i] == (nodes[n].conn, t);
    }
  }

  lemma NothingLost(core: Core, node: NodeId, clock: nat -> Protocol.Time)
    ensures FinishBy(core, LogLost(node, []), clock) == core
  {
    assert FinishBy(core, Gone, clock) == core;
  }

  lemma FinishLostTask(core: Core, node: NodeId, rest: seq<(TaskId, JobId)>, clock: nat -> Protocol.Time)
    requires rest != []
    ensures var now := clock(Rank(LogLost(node, rest)));
      var line, exit := LostLine(rest[0], node, now), FailedExit(rest[0].1, rest[0].0, node, now);
      FinishBy(core, LogLost(node, rest), clock) ==
      FinishBy(core.(rows := RowExited(core.rows, exit), logs := core.logs + [line],
                     events := core.events + [LogEvent(line)] + [ExitedEvent(exit)]),
               LogLost(node, rest[1..]), clock)
  {
    var now := clock(Rank(LogLost(node, rest)));
    var line, exit := LostLine(rest[0], node, now), FailedExit(rest[0].1, rest[0].0, node, now);
    var core1 := core.(logs := core.logs + [line]);
    var core2 := core1.(events := core1.events + [LogEvent(line)]);
    var core3 := core2.(rows := RowExited(core2.rows, exit));
    var core4 := core3.(events := core3.events + [ExitedEvent(exit)]);
    var then_ := NextLost(node, rest[1..]);
    assert FinishBy(core, LogLost(node, rest), clock) == FinishBy(core1, SendLostLog(node, rest[1..], line), clock);
    assert FinishBy(core1, SendLostLog(node, rest[1..], line), clock)
      == FinishBy(core2, RecordExit(exit, then_), clock);
    assert FinishBy(core2, RecordExit(exit, then_), clock) == FinishBy(core3, SendExit(exit, then_), clock);
    assert FinishBy(core3, SendExit(exit, then_), clock) == FinishBy(core4, LogLost(node, rest[1..]), clock);
  }

  method ListEntries(running: map<TaskId, JobId>) returns (order: seq<(TaskId, JobId)>)
    ensures Enumerates(order, running)
  {
    order := [];
    var left := running.Keys;
    while left != {}
      invariant left <= running.Keys
      invariant forall i :: 0 <= i < |order| ==>
                  order[i].0 in running && order[i].0 !in left && running[order[i].0] == order[i].1
      invariant forall i, j :: 0 <= i < j < |order| ==> order[i].0 != order[j].0
      invariant forall t :: t in running ==> t in left || exists i :: 0 <= i < |order| && order[i].0 == t
      decreases left
    {
      var t :| t in left;
      left := left - {t};
      ghost var before := order;
      order := order + [(t, running[t])];
      assert order[|before|].0 == t;
      assert forall i :: 0 <= i < |before| ==> order[i] == before[i];
    }
  }

  method ListKeys(nodes: map<NodeId, Handle>) returns (order: seq<NodeId>)
    ensures IsNodeOrder(order, nodes)
  {
    order := [];
    var left := nodes.Keys;
    while left != {}
      invariant left <= nodes.Keys
      invariant forall n :: n in order <==> n in nodes && n !in left
      invariant forall i, j :: 0 <= i < j < |order| ==> order[i] != order[j]
      decreases left
    {
      var n :| n in left;
      left := left - {n};
      order := order + [n];
    }
  }
}
