/** From the request of a client to the process on a worker, over every run of the whole system: what is dispatched is
    what was asked for, it arrives unchanged, and only clients that asked to wait are kept waiting. */
module Requests {
  import opened Protocol
  import opened CoordinatorCore
  import opened Policy
  import opened Cluster
  import opened Leases

  // ---- What a dispatch selects ----

  /** Every refusal has its reason, and without one the nodes are those named, else those of the lease, else all. */
  lemma SelectionFollowsRequest(core: Core, request: RunRequest, order: seq<NodeId>)
    ensures var leased := if request.lease.Some? && request.lease.value in core.leases
                          then core.leases[request.lease.value].nodes else [];
      match SelectNodes(core, request, order)
      case Refused(EmptyArgv) => request.argv == []
      case Refused(LeaseNotFound) =>
        request.argv != [] && request.lease.Some? && request.lease.value !in core.leases
      case Refused(NotInLease) =>
        && request.argv != [] && request.lease.Some? && request.lease.value in core.leases
        && exists n :: n in request.nodes && n !in leased
      case Selected(selected) =>
        && request.argv != []
        && (request.lease.Some? ==>
              request.lease.value in core.leases && forall n :: n in request.nodes ==> n in leased)
        && (if request.nodes != [] then selected == request.nodes
            else if leased != [] then selected == leased
            else selected == order)
  {
  }

  /** What a dispatch step writes into its run. */
  lemma DispatchStep(s: Sys, step: Step, s': Sys)
    requires step.Dispatch? && Next(s, step, s')
    ensures step.run in s.runs && step.run in s'.runs && step.upto <= |step.selected|
    ensures s.runs[step.run].phase.Subscribed? && !s'.runs[step.run].phase.Subscribed?
    ensures !s'.runs[step.run].phase.Following? && !s'.runs[step.run].phase.Finished?
    ensures forall r :: r in s.runs && r != step.run ==> r in s'.runs && s'.runs[r] == s.runs[r]
    ensures s'.runs.Keys == s.runs.Keys
    ensures s'.conns == s.conns
    ensures s'.core.nodes.Keys == s.core.nodes.Keys
    ensures forall n :: n in s.core.nodes ==> s'.core.nodes[n].conn == s.core.nodes[n].conn
    ensures var run, wanted := s'.runs[step.run], step.selected[..step.upto];
      && run.job == step.job && run.wait == step.request.wait
      && exists errors :: DispatchesTo(s.core.nodes, step.request, step.job, wanted, step.ids, run.assignments,
                                       run.dispatch, errors)
    ensures exists order :: IsNodeOrder(order, s.core.nodes)
              && SelectNodes(s.core, step.request, order) == Selected(step.selected)
    ensures step.upto < |step.selected| ==>
              step.selected[step.upto] !in s.core.nodes && s'.runs[step.run].phase.Stopped?
  {
    hide SelectNodes, Places, IsNodeOrder;
    var wanted := step.selected[..step.upto];
    PlacingAsRequested(s.core, step.request, step.job, wanted, step.ids, step.clock);
    PlaceAligned(s.core, step.request, step.job, wanted, step.ids, step.clock);
    hide PlaceAll, DispatchesTo;
  }

  /** In every run of the system, a dispatch goes to the nodes that the request names, else to those of its lease, else
      to all that are connected: one task for each connected position up to where it is left, on that node's connection
      and with the command, directory, timeout and variables of the request. */
  lemma DispatchFollowsRequest(states: seq<Sys>, steps: seq<Step>, k: nat)
    requires Execution(states, steps) && k < |steps| && steps[k].Dispatch?
    ensures |states| == |steps| + 1
    ensures var Dispatch(r, request, job, selected, upto, ids, _) := steps[k];
      && request.argv != [] && upto <= |selected| && r in states[k + 1].runs
      && (upto < |selected| ==> selected[upto] !in states[k].core.nodes && states[k + 1].runs[r].phase.Stopped?)
      && (request.lease.Some? ==> request.lease.value in states[k].core.leases)
      && (request.nodes != [] ==> selected == request.nodes)
      && (request.nodes == [] && request.lease.Some? ==> selected == states[k].core.leases[request.lease.value].nodes)
      && (request.nodes == [] && request.lease.None? ==> IsNodeOrder(selected, states[k].core.nodes))
      && var run := states[k + 1].runs[r];
         && (exists errors :: DispatchesTo(states[k].core.nodes, request, job, selected[..upto], ids, run.assignments,
                                           run.dispatch, errors))
         && (request.nodes != [] ==> forall a :: a in run.assignments ==> a.node in request.nodes)
  {
    hide Execution, Next, DispatchesTo, SelectNodes, IsNodeOrder, Overlaps;
    RunStep(states, steps, k);
    LeaseExclusion(states, steps, k);
    var s, s', step := states[k], states[k + 1], steps[k];
    DispatchStep(s, step, s');
    var order :|
      IsNodeOrder(order, s.core.nodes) && SelectNodes(s.core, step.request, order) == Selected(step.selected);
    SelectionFollowsRequest(s.core, step.request, order);
    var run, wanted := s'.runs[step.run], step.selected[..step.upto];
    var errors :| DispatchesTo(s.core.nodes, step.request, step.job, wanted, step.ids, run.assignments, run.dispatch,
                               errors);
    forall a | a in run.assignments ensures a.node in wanted {
      var i :| 0 <= i < |run.assignments| && run.assignments[i] == a;
      AssignedIsWanted(
        s.core.nodes, step.request, step.job, wanted, step.ids, run.assignments, run.dispatch, errors, i);
    }
  }

  lemma AssignedIsWanted(
      nodes: map<NodeId, Handle>, request: RunRequest, job: JobId, wanted: seq<NodeId>, ids: seq<TaskId>,
      assignments: seq<TaskAssignment>, dispatch: seq<(nat, RunSpec)>, errors: seq<NodeId>, i: nat)
    requires DispatchesTo(nodes, request, job, wanted, ids, assignments, dispatch, errors) && i < |assignments|
    ensures assignments[i].node in wanted
  {
    hide SpecAsks;
    assert NodesOfAll(assignments)[i] == assignments[i].node;
  }

  // ---- What a run keeps ----

  /** The work of a run is settled by its dispatch. */
  predicate SameWork(run: Run, run': Run) {
    && !run'.phase.Subscribed?
    && run'.job == run.job && run'.assignments == run.assignments && run'.dispatch == run.dispatch
    && run'.wait == run.wait
  }

  predicate WaitsAsAsked(run: Run) {
    run.phase.Following? || run.phase.Finished? ==> run.wait
  }

  lemma WireRuns(s: Sys, step: WireStep, s': Sys)
    requires NextWire(s, step, s')
    ensures s'.runs == s.runs
  {
  }

  lemma WorkRuns(s: Sys, c: nat, step: WorkStep, s': Sys)
    requires NextWork(s, c, step, s')
    ensures s'.runs == s.runs
  {
  }

  lemma ClientRuns(s: Sys, step: ClientStep, s': Sys, r: nat)
    requires NextClient(s, step, s') && r in s'.runs && !s'.runs[r].phase.Subscribed?
    ensures r in s.runs && !s.runs[r].phase.Subscribed? && SameWork(s.runs[r], s'.runs[r])
    ensures WaitsAsAsked(s.runs[r]) ==> WaitsAsAsked(s'.runs[r])
  {
  }

  lemma OtherRunStep(s: Sys, step: Step, s': Sys, r: nat)
    requires Next(s, step, s') && r in s'.runs && !s'.runs[r].phase.Subscribed?
    requires !(step.Dispatch? && step.run == r)
    ensures r in s.runs && !s.runs[r].phase.Subscribed? && SameWork(s.runs[r], s'.runs[r])
    ensures WaitsAsAsked(s.runs[r]) ==> WaitsAsAsked(s'.runs[r])
  {
    hide NextWire, NextWork, NextClient;
    match step
    case Wire(wire) => WireRuns(s, wire, s');
    case Work(c, work) => WorkRuns(s, c, work, s');
    case Client(call) => ClientRuns(s, call, s', r);
    case Dispatch(q, request, job, selected, upto, ids, clock) => hide PlaceAll, Places;
  }

  /** Step `k` dispatched run `r`, whose work in `states[i]` is still what that step settled. */
  ghost predicate DispatchedAt(states: seq<Sys>, steps: seq<Step>, k: nat, i: nat, r: nat) {
    && |states| == |steps| + 1 && k < i <= |steps|
    && steps[k].Dispatch? && steps[k].run == r
    && r in states[k + 1].runs && r in states[i].runs && SameWork(states[k + 1].runs[r], states[i].runs[r])
  }

  lemma {:induction false} RunsAreDispatched(states: seq<Sys>, steps: seq<Step>, i: nat, r: nat)
    requires Execution(states, steps) && i <= |steps|
    requires |states| == |steps| + 1 && r in states[i].runs && !states[i].runs[r].phase.Subscribed?
    ensures WaitsAsAsked(states[i].runs[r])
    ensures exists k: nat :: DispatchedAt(states, steps, k, i, r)
  {
    if i > 0 {
      var n := i - 1;
      RunStep(states, steps, n);
      if steps[n].Dispatch? && steps[n].run == r {
        DispatchStep(states[n], steps[n], states[i]);
        assert DispatchedAt(states, steps, n, i, r);
      } else {
        OtherRunStep(states[n], steps[n], states[i], r);
        hide Next, Execution;
        RunsAreDispatched(states, steps, n, r);
        var k: nat :| DispatchedAt(states, steps, k, n, r);
        assert DispatchedAt(states, steps, k, i, r);
      }
    }
  }

  /** In every run of the system, a client is kept waiting, or told that its job has finished, only if its request asked
      to wait; one that asked to is kept waiting as soon as its tasks are sent out. */
  lemma OnlyWaitersWait(states: seq<Sys>, steps: seq<Step>, i: nat, r: nat)
    requires Execution(states, steps) && i <= |steps|
    requires |states| == |steps| + 1 && r in states[i].runs && !states[i].runs[r].phase.Subscribed?
    ensures exists k: nat :: DispatchedAt(states, steps, k, i, r)
              && (states[i].runs[r].phase.Following? || states[i].runs[r].phase.Finished? ==> steps[k].request.wait)
              && (i < |steps| && steps[i] == Client(Follow(r)) ==>
                    r in states[i + 1].runs && (states[i + 1].runs[r].phase.Following? <==> steps[k].request.wait))
  {
    RunsAreDispatched(states, steps, i, r);
    var k: nat :| DispatchedAt(states, steps, k, i, r);
    RunStep(states, steps, k);
    DispatchStep(states[k], steps[k], states[k + 1]);
    if i < |steps| && steps[i] == Client(Follow(r)) {
      RunStep(states, steps, i);
      FollowStep(states[i], r, states[i + 1]);
    }
    hide Execution, Next, DispatchesTo, SelectNodes;
  }

  lemma FollowStep(s: Sys, r: nat, s': Sys)
    requires Next(s, Client(Follow(r)), s') && r in s.runs
    ensures r in s'.runs && (s'.runs[r].phase.Following? <==> s.runs[r].wait)
  {
  }

  // ---- What reaches a worker ----

  /** Some run has this spec to send over this connection. */
  ghost predicate ToBeSent(runs: map<nat, Run>, c: nat, spec: RunSpec) {
    exists r, d ::
      r in runs && !runs[r].phase.Subscribed? && 0 <= d < |runs[r].dispatch| && runs[r].dispatch[d] == (c, spec)
  }

  ghost predicate MailAsked(runs: map<nat, Run>, c: nat, inbox: seq<CoordinatorMessage>) {
    forall i :: 0 <= i < |inbox| && inbox[i].StartTask? ==> ToBeSent(runs, c, inbox[i].spec)
  }

  predicate TaskAsked(conn: Conn, t: TaskId) {
    t in conn.tasks && !conn.tasks[t].Rejected? ==>
      && conn.tasks[t].spec.task == t && StartTask(conn.tasks[t].spec) in conn.inbox
      && (conn.tasks[t].Live? ==> Authorize(conn.policy, conn.tasks[t].spec.argv).Allow?)
  }

  ghost predicate WorkerAsked(runs: map<nat, Run>, c: nat, conn: Conn) {
    MailAsked(runs, c, conn.inbox) && forall t :: t in conn.tasks ==> TaskAsked(conn, t)
  }

  predicate HandlesNamed(s: Sys) {
    forall n :: n in s.core.nodes ==>
      s.core.nodes[n].conn in s.conns && s.conns[s.core.nodes[n].conn].node == n
  }

  ghost predicate AllAsked(s: Sys) {
    HandlesNamed(s) && forall c :: c in s.conns ==> WorkerAsked(s.runs, c, s.conns[c])
  }

  lemma ToBeSentStays(s: Sys, step: Step, s': Sys, c: nat, spec: RunSpec)
    requires Next(s, step, s') && ToBeSent(s.runs, c, spec)
    ensures ToBeSent(s'.runs, c, spec)
  {
    var r, d :| r in s.runs && !s.runs[r].phase.Subscribed? && 0 <= d < |s.runs[r].dispatch|
      && s.runs[r].dispatch[d] == (c, spec);
    RunStays(s, step, s', r);
    hide Next;
    assert s'.runs[r].dispatch[d] == (c, spec);
  }

  lemma ClientRunStays(s: Sys, step: ClientStep, s': Sys, r: nat)
    requires NextClient(s, step, s') && r in s.runs && !s.runs[r].phase.Subscribed?
    ensures r in s'.runs && SameWork(s.runs[r], s'.runs[r])
  {
    hide LeaseCreated, LeaseReleased, Addressed, KillTargets, IsNodeOrder;
  }

  lemma RunStays(s: Sys, step: Step, s': Sys, r: nat)
    requires Next(s, step, s') && r in s.runs && !s.runs[r].phase.Subscribed?
    ensures r in s'.runs && SameWork(s.runs[r], s'.runs[r])
  {
    hide NextWire, NextWork, NextClient;
    match step
    case Wire(wire) => WireRuns(s, wire, s');
    case Work(c, work) => WorkRuns(s, c, work, s');
    case Client(call) => ClientRunStays(s, call, s', r);
    case Dispatch(q, request, job, selected, upto, ids, clock) => hide PlaceAll, Places;
  }

  lemma MailStays(s: Sys, step: Step, s': Sys, c: nat, inbox: seq<CoordinatorMessage>)
    requires Next(s, step, s') && MailAsked(s.runs, c, inbox)
    ensures MailAsked(s'.runs, c, inbox)
  {
    hide Next, ToBeSent;
    forall i | 0 <= i < |inbox| && inbox[i].StartTask? ensures ToBeSent(s'.runs, c, inbox[i].spec) {
      ToBeSentStays(s, step, s', c, inbox[i].spec);
    }
  }

  /** The worker's end of a connection is as it was. */
  predicate SameWorker(conn: Conn, conn': Conn) {
    conn'.node == conn.node && conn'.policy == conn.policy && conn'.inbox == conn.inbox && conn'.tasks == conn.tasks
  }

  lemma SameWorkerAsked(s: Sys, step: Step, s': Sys, c: nat)
    requires Next(s, step, s') && c in s.conns && c in s'.conns && SameWorker(s.conns[c], s'.conns[c])
    requires WorkerAsked(s.runs, c, s.conns[c])
    ensures WorkerAsked(s'.runs, c, s'.conns[c])
  {
    MailStays(s, step, s', c, s.conns[c].inbox);
    hide Next, MailAsked;
  }

  lemma WireWorkers(s: Sys, step: WireStep, s': Sys, c: nat)
    requires NextWire(s, step, s') && c in s'.conns
    ensures if c in s.conns then SameWorker(s.conns[c], s'.conns[c])
            else s'.conns[c].inbox == [] && s'.conns[c].tasks == map[]
  {
    hide Read, Advance;
  }

  /** Every handle is an old one, on the same connection. */
  predicate OldHandles(nodes: map<NodeId, Handle>, nodes': map<NodeId, Handle>) {
    forall n :: n in nodes' ==> n in nodes && nodes'[n].conn == nodes[n].conn
  }

  lemma ReadHandles(core: Core, message: WorkerMessage, now: Protocol.Time)
    ensures OldHandles(core.nodes, Read(core, message, now).0.nodes)
  {
  }

  lemma AdvanceHandles(core: Core, cont: Cont, now: Protocol.Time)
    ensures OldHandles(core.nodes, Advance(core, cont, now).0.nodes)
  {
  }

  lemma WireHandles(s: Sys, step: WireStep, s': Sys)
    requires NextWire(s, step, s') && HandlesNamed(s)
    ensures HandlesNamed(s')
  {
    match step
    case ReadMessage(c, now) =>
      ReadHandles(s.core, s.conns[c].sent[s.conns[c].read], now);
      hide Read;
    case Continue(c, now) =>
      AdvanceHandles(s.core, s.conns[c].cont, now);
      hide Advance;
    case _ =>
  }

  lemma WorkHandles(s: Sys, c: nat, step: WorkStep, s': Sys)
    requires NextWork(s, c, step, s') && HandlesNamed(s)
    ensures HandlesNamed(s')
  {
  }

  lemma ClientHandles(s: Sys, step: ClientStep, s': Sys)
    requires NextClient(s, step, s') && HandlesNamed(s)
    ensures HandlesNamed(s')
  {
  }

  lemma WorkOthers(s: Sys, c: nat, step: WorkStep, s': Sys, d: nat)
    requires NextWork(s, c, step, s') && d in s'.conns
    ensures d in s.conns && (d != c ==> s'.conns[d] == s.conns[d]) && s'.conns[d].inbox == s.conns[d].inbox
  {
  }

  lemma WorkTask(s: Sys, c: nat, step: WorkStep, s': Sys, t: TaskId)
    requires NextWork(s, c, step, s') && c in s.conns && c in s'.conns && TaskAsked(s.conns[c], t)
    ensures TaskAsked(s'.conns[c], t)
  {
    hide Authorize;
  }

  lemma AskedWork(s: Sys, c: nat, step: WorkStep, s': Sys, d: nat)
    requires Next(s, Work(c, step), s') && d in s.conns && d in s'.conns && WorkerAsked(s.runs, d, s.conns[d])
    ensures WorkerAsked(s'.runs, d, s'.conns[d])
  {
    WorkOthers(s, c, step, s', d);
    MailStays(s, Work(c, step), s', d, s.conns[d].inbox);
    hide MailAsked, NextWork;
    if d == c {
      forall t | t in s'.conns[c].tasks ensures TaskAsked(s'.conns[c], t) {
        assert TaskAsked(s.conns[c], t);
        WorkTask(s, c, step, s', t);
      }
    }
  }

  /** A client step leaves a connection alone or puts one message into it, a start only of what some run has to send. */
  lemma ClientMail(s: Sys, step: ClientStep, s': Sys, c: nat)
    requires NextClient(s, step, s') && c in s'.conns
    ensures c in s.conns
    ensures s'.conns[c] == s.conns[c]
            || exists message :: s'.conns[c] == s.conns[c].(inbox := s.conns[c].inbox + [message])
                 && (message.StartTask? ==> ToBeSent(s.runs, c, message.spec))
  {
    hide LeaseCreated, LeaseReleased, Addressed, KillTargets, IsNodeOrder, WaitLoop.WaitStep;
    match step
    case SendStart(r) =>
      var d := s.runs[r].next;
      var (to, spec) := s.runs[r].dispatch[d];
      assert s.runs[r].dispatch[d] == (to, spec);
      assert ToBeSent(s.runs, to, spec);
      if c == to {
        assert s'.conns[c] == s.conns[c].(inbox := s.conns[c].inbox + [StartTask(spec)]);
      }
    case SendKill(k) =>
      var (to, task) := s.kills[k][0];
      if c == to {
        assert s'.conns[c] == s.conns[c].(inbox := s.conns[c].inbox + [KillTask(task)]);
      }
    case _ =>
  }

  lemma AskedClient(s: Sys, step: ClientStep, s': Sys, c: nat)
    requires Next(s, Client(step), s') && c in s.conns && c in s'.conns && WorkerAsked(s.runs, c, s.conns[c])
    ensures WorkerAsked(s'.runs, c, s'.conns[c])
  {
    ClientMail(s, step, s', c);
    var conn, conn' := s.conns[c], s'.conns[c];
    if conn' == conn {
      SameWorkerAsked(s, Client(step), s', c);
    } else {
      var message :| conn' == conn.(inbox := conn.inbox + [message])
        && (message.StartTask? ==> ToBeSent(s.runs, c, message.spec));
      hide NextClient, ToBeSent, Authorize;
      MailGrows(s.runs, c, conn.inbox, message);
      MailStays(s, Client(step), s', c, conn.inbox + [message]);
      hide Next, MailAsked;
      forall t | t in conn'.tasks ensures TaskAsked(conn', t) {
        assert TaskAsked(conn, t);
      }
    }
  }

  lemma MailGrows(runs: map<nat, Run>, c: nat, inbox: seq<CoordinatorMessage>, message: CoordinatorMessage)
    requires MailAsked(runs, c, inbox) && (message.StartTask? ==> ToBeSent(runs, c, message.spec))
    ensures MailAsked(runs, c, inbox + [message])
  {
    hide ToBeSent;
  }

  lemma WireKeepsAsked(s: Sys, step: WireStep, s': Sys)
    requires AllAsked(s) && Next(s, Wire(step), s')
    ensures AllAsked(s')
  {
    hide NextWire, WorkerAsked, HandlesNamed, SameWorker;
    WireHandles(s, step, s');
    forall c | c in s'.conns ensures WorkerAsked(s'.runs, c, s'.conns[c]) {
      WireWorkers(s, step, s', c);
      if c in s.conns { SameWorkerAsked(s, Wire(step), s', c); } else { NothingAsked(s'.runs, c, s'.conns[c]); }
    }
  }

  lemma WorkKeepsAsked(s: Sys, at: nat, step: WorkStep, s': Sys)
    requires AllAsked(s) && Next(s, Work(at, step), s')
    ensures AllAsked(s')
  {
    hide NextWork, WorkerAsked, HandlesNamed;
    WorkHandles(s, at, step, s');
    forall c | c in s'.conns ensures WorkerAsked(s'.runs, c, s'.conns[c]) {
      WorkOthers(s, at, step, s', c);
      AskedWork(s, at, step, s', c);
    }
  }

  lemma ClientKeepsAsked(s: Sys, step: ClientStep, s': Sys)
    requires AllAsked(s) && Next(s, Client(step), s')
    ensures AllAsked(s')
  {
    hide NextClient, WorkerAsked, HandlesNamed, ToBeSent;
    ClientHandles(s, step, s');
    forall c | c in s'.conns ensures WorkerAsked(s'.runs, c, s'.conns[c]) {
      ClientMail(s, step, s', c);
      AskedClient(s, step, s', c);
    }
  }

  lemma StepKeepsAsked(s: Sys, step: Step, s': Sys)
    requires AllAsked(s) && Next(s, step, s')
    ensures AllAsked(s')
  {
    match step
    case Wire(wire) => hide Next, AllAsked; WireKeepsAsked(s, wire, s');
    case Work(at, work) => hide Next, AllAsked; WorkKeepsAsked(s, at, work, s');
    case Client(call) => hide Next, AllAsked; ClientKeepsAsked(s, call, s');
    case Dispatch(_, _, _, _, _, _, _) =>
      hide Next, DispatchesTo, SelectNodes, WorkerAsked;
      DispatchStep(s, step, s');
      forall c | c in s'.conns ensures WorkerAsked(s'.runs, c, s'.conns[c]) {
        SameWorkerAsked(s, step, s', c);
      }
  }

  lemma NothingAsked(runs: map<nat, Run>, c: nat, conn: Conn)
    requires conn.inbox == [] && conn.tasks == map[]
    ensures WorkerAsked(runs, c, conn)
  {
  }

  lemma {:induction false} AskedHolds(states: seq<Sys>, steps: seq<Step>, i: nat)
    requires Execution(states, steps) && i <= |steps|
    ensures |states| == |steps| + 1 && AllAsked(states[i])
  {
    if i > 0 {
      AskedHolds(states, steps, i - 1);
      RunStep(states, steps, i - 1);
      hide Next, Execution, AllAsked;
      StepKeepsAsked(states[i - 1], steps[i - 1], states[i]);
    }
  }

  lemma SpecArrived(conn: Conn, t: TaskId)
    requires TaskAsked(conn, t) && t in conn.tasks && !conn.tasks[t].Rejected?
    ensures conn.tasks[t].spec.task == t && StartTask(conn.tasks[t].spec) in conn.inbox
    ensures conn.tasks[t].Live? ==> Authorize(conn.policy, conn.tasks[t].spec.argv).Allow?
  {
    hide Authorize;
  }

  /** What a run has to send is what its dispatch step was asked for. */
  lemma SentAsAsked(
      states: seq<Sys>, steps: seq<Step>, k: nat, i: nat, r: nat, c: nat, d: nat, spec: RunSpec)
    requires Execution(states, steps) && DispatchedAt(states, steps, k, i, r)
    requires d < |states[i].runs[r].dispatch| && states[i].runs[r].dispatch[d] == (c, spec)
    ensures SpecAsks(spec, steps[k].request, steps[k].job, spec.task, spec.node)
    ensures spec.node in states[k].core.nodes && states[k].core.nodes[spec.node].conn == c
    ensures c in states[i].conns && states[i].conns[c].node == spec.node
    ensures spec.node in steps[k].selected
  {
    RunStep(states, steps, k);
    AskedHolds(states, steps, k);
    var s, s', step := states[k], states[k + 1], steps[k];
    DispatchStep(s, step, s');
    hide Next, SelectNodes, IsNodeOrder;
    var run, wanted := s'.runs[r], step.selected[..step.upto];
    var errors :| DispatchesTo(s.core.nodes, step.request, step.job, wanted, step.ids, run.assignments, run.dispatch,
                               errors);
    AssignedIsWanted(s.core.nodes, step.request, step.job, wanted, step.ids, run.assignments, run.dispatch, errors, d);
    assert run.dispatch[d] == (c, spec);
    ConnStays(states, steps, k, i, c);
  }

  lemma WireNodeStays(s: Sys, step: WireStep, s': Sys, c: nat)
    requires NextWire(s, step, s') && c in s.conns
    ensures c in s'.conns && s'.conns[c].node == s.conns[c].node
  {
    hide Read, Advance;
  }

  lemma WorkNodeStays(s: Sys, at: nat, step: WorkStep, s': Sys, c: nat)
    requires NextWork(s, at, step, s') && c in s.conns
    ensures c in s'.conns && s'.conns[c].node == s.conns[c].node
  {
    hide Authorize;
  }

  lemma ClientNodeStays(s: Sys, step: ClientStep, s': Sys, c: nat)
    requires NextClient(s, step, s') && c in s.conns
    ensures c in s'.conns && s'.conns[c].node == s.conns[c].node
  {
    hide LeaseCreated, LeaseReleased, Addressed, KillTargets, IsNodeOrder;
  }

  lemma NodeStays(s: Sys, step: Step, s': Sys, c: nat)
    requires Next(s, step, s') && c in s.conns
    ensures c in s'.conns && s'.conns[c].node == s.conns[c].node
  {
    hide NextWire, NextWork, NextClient;
    match step
    case Wire(wire) => WireNodeStays(s, wire, s', c);
    case Work(at, work) => WorkNodeStays(s, at, work, s', c);
    case Client(call) => ClientNodeStays(s, call, s', c);
    case Dispatch(_, _, _, _, _, _, _) =>
      hide DispatchesTo, SelectNodes;
      DispatchStep(s, step, s');
  }

  lemma {:induction false} ConnStays(states: seq<Sys>, steps: seq<Step>, k: nat, i: nat, c: nat)
    requires Execution(states, steps) && k <= i <= |steps| && |states| == |steps| + 1 && c in states[k].conns
    ensures c in states[i].conns && states[i].conns[c].node == states[k].conns[c].node
  {
    if k < i {
      ConnStays(states, steps, k, i - 1, c);
      RunStep(states, steps, i - 1);
      hide Next, Execution;
      NodeStays(states[i - 1], steps[i - 1], states[i], c);
    }
  }

  /** In every run of the system, whatever workers send: a task that a worker holds or runs was asked for by the request
      of some dispatch, for that worker's node, and arrives with exactly the command, directory, timeout and variables
      asked for; it runs only if the worker's policy allows that command. */
  lemma WorkersRunRequests(states: seq<Sys>, steps: seq<Step>, i: nat, c: nat, t: TaskId)
    requires Execution(states, steps) && i <= |steps| && |states| == |steps| + 1
    requires c in states[i].conns && t in states[i].conns[c].tasks && !states[i].conns[c].tasks[t].Rejected?
    ensures var conn, task := states[i].conns[c], states[i].conns[c].tasks[t];
      && (task.Live? ==> Authorize(conn.policy, task.spec.argv).Allow?)
      && exists k: nat :: k < i && steps[k].Dispatch?
           && SpecAsks(task.spec, steps[k].request, steps[k].job, t, conn.node)
           && conn.node in states[k].core.nodes && states[k].core.nodes[conn.node].conn == c
           && conn.node in steps[k].selected
  {
    AskedHolds(states, steps, i);
    var s, conn := states[i], states[i].conns[c];
    assert WorkerAsked(s.runs, c, conn) && TaskAsked(conn, t);
    hide Authorize, TaskAsked;
    var spec := conn.tasks[t].spec;
    assert spec.task == t && StartTask(spec) in conn.inbox by { SpecArrived(conn, t); }
    var j :| 0 <= j < |conn.inbox| && conn.inbox[j] == StartTask(spec);
    assert ToBeSent(s.runs, c, spec);
    var r, d :| r in s.runs && !s.runs[r].phase.Subscribed? && 0 <= d < |s.runs[r].dispatch|
      && s.runs[r].dispatch[d] == (c, spec);
    RunsAreDispatched(states, steps, i, r);
    var k: nat :| DispatchedAt(states, steps, k, i, r);
    hide Execution;
    SentAsAsked(states, steps, k, i, r, c, d, spec);
  }
}
