/** The whole system as a state machine: the coordinator at the granularity of its locked sections, one FIFO channel
    each way for every worker connection, the workers with their executors, and the clients' runs.

    A channel is the sequence of everything ever put into it together with how much of it has been taken out. */
module Cluster {
  import opened Protocol
  import opened JobStore
  import opened CoordinatorCore
  import opened WaitLoop
  import opened Policy

  /** A task on its worker: the spec has arrived; it was turned down; or its process was spawned, and `events` is
      what the executor has put into the task's event channel, `forwarded` of it passed on. */
  datatype WorkerTask =
    | Received(spec: RunSpec)
    | Rejected
    | Live(spec: RunSpec, events: seq<WorkerMessage>, forwarded: nat, alive: bool)

  /** A worker connection, both ends. `open` until the coordinator sees the stream end; `reading` until its read
      loop is left through an error, which leaves the node's handle in place. */
  datatype Conn = Conn(
    node: NodeId,
    policy: PolicyConfig,
    cont: Cont,
    open: bool,
    reading: bool,
    sent: seq<WorkerMessage>,
    read: nat,
    inbox: seq<CoordinatorMessage>,
    got: nat,
    tasks: map<TaskId, WorkerTask>)

  datatype Phase = Subscribed | Dispatching | Following | Finished | Stopped

  /** One `run_process` call. */
  datatype Run = Run(
    phase: Phase,
    cursor: nat,
    job: JobId,
    assignments: seq<TaskAssignment>,
    dispatch: seq<(nat, RunSpec)>,
    next: nat,
    wait: bool,
    waiting: Waiting,
    success: bool)

  /** Where a task was placed: history that no handler reads. */
  datatype Place = Place(job: JobId, node: NodeId, conn: nat, run: nat, index: nat)

  datatype Sys = Sys(
    core: Core,
    conns: map<nat, Conn>,
    runs: map<nat, Run>,
    kills: map<nat, seq<(nat, TaskId)>>,
    placed: map<TaskId, Place>)

  /** What the coordinator does on worker connections. */
  datatype WireStep =
    | Register(conn: nat, node: NodeId, policy: PolicyConfig)
    | ReadMessage(conn: nat, now: Time)
    | Continue(conn: nat, now: Time)
    | ReadError(conn: nat)
    | Disconnect(conn: nat, order: seq<(TaskId, JobId)>)

  /** What happens at the worker end of a connection. */
  datatype WorkStep =
    | Receive
    | KillSucceeds
    | KillFails(message: string)
    | Reject(task: TaskId, message: string)
    | Spawn(task: TaskId, pid: Option<nat>, now: Time)
    | Output(task: TaskId, line: LogLine)
    | Exit(task: TaskId, exitCode: Option<int>, success: bool, now: Time)
    | Forward(task: TaskId)
    | Forge(forged: WorkerMessage)

  /** What clients have the coordinator do, other than placing tasks. */
  datatype ClientStep =
    | Subscribe(run: nat)
    | SendStart(run: nat)
    | Follow(run: nat)
    | ReadEvent(run: nat)
    | FinishRun(run: nat)
    | Stop(run: nat)
    | KillJob(kill: nat, job: JobId, targets: seq<(NodeId, TaskId)>)
    | SendKill(kill: nat)
    | CreateLease(names: seq<NodeId>, lease: LeaseRequest, id: LeaseId)
    | ReleaseLease(id: LeaseId)

  datatype Step =
    | Wire(wire: WireStep)
    | Work(at: nat, work: WorkStep)
    | Client(call: ClientStep)
    | Dispatch(run: nat, request: RunRequest, job: JobId, selected: seq<NodeId>, upto: nat, ids: seq<TaskId>,
      clock: seq<Time>)

  // ---- Parts of the state ----

  function WithConn(s: Sys, c: nat, conn: Conn): Sys {
    s.(conns := s.conns[c := conn])
  }

  function WithRun(s: Sys, r: nat, run: Run): Sys {
    s.(runs := s.runs[r := run])
  }

  // ---- Coordinator: worker connections ----

  function DoRegister(s: Sys, c: nat, node: NodeId, policy: PolicyConfig): Sys {
    s.(core := s.core.(nodes := s.core.nodes[node := Handle(c, map[])]),
       conns := s.conns[c := Conn(node, policy, Idle, true, true, [], 0, [], 0, map[])])
  }

  predicate CanRead(s: Sys, c: nat) {
    c in s.conns && s.conns[c].cont.Idle? && s.conns[c].open && s.conns[c].reading
      && s.conns[c].read < |s.conns[c].sent|
  }

  function DoRead(s: Sys, c: nat, now: Time): Sys
    requires CanRead(s, c)
  {
    var conn := s.conns[c];
    var (core, cont) := Read(s.core, conn.sent[conn.read], now);
    WithConn(s, c, conn.(read := conn.read + 1, cont := cont)).(core := core)
  }

  predicate CanContinue(s: Sys, c: nat) {
    c in s.conns && !s.conns[c].cont.Idle? && !s.conns[c].cont.Gone?
  }

  function DoContinue(s: Sys, c: nat, now: Time): Sys
    requires CanContinue(s, c)
  {
    var (core, cont) := Advance(s.core, s.conns[c].cont, now);
    WithConn(s, c, s.conns[c].(cont := cont)).(core := core)
  }

  predicate CanLeave(s: Sys, c: nat) {
    c in s.conns && s.conns[c].cont.Idle? && s.conns[c].open && s.conns[c].reading
  }

  function DoReadError(s: Sys, c: nat): Sys
    requires CanLeave(s, c)
  {
    WithConn(s, c, s.conns[c].(reading := false))
  }

  ghost predicate CanDisconnect(s: Sys, c: nat, order: seq<(TaskId, JobId)>) {
    CanLeave(s, c) && Enumerates(order, RunningOn(s.core, s.conns[c].node))
  }

  function DoDisconnect(s: Sys, c: nat, order: seq<(TaskId, JobId)>): Sys
    requires CanLeave(s, c)
  {
    var (core, cont) := TakeLost(s.core, s.conns[c].node, order);
    WithConn(s, c, s.conns[c].(cont := cont, open := false, reading := false)).(core := core)
  }

  // ---- Workers ----

  predicate HasMail(s: Sys, c: nat) {
    c in s.conns && s.conns[c].got < |s.conns[c].inbox|
  }

  function Mail(s: Sys, c: nat): CoordinatorMessage
    requires HasMail(s, c)
  {
    s.conns[c].inbox[s.conns[c].got]
  }

  /** The read loop takes a StartTask and spawns `start_task` for it. */
  function DoReceive(s: Sys, c: nat): Sys
    requires HasMail(s, c) && Mail(s, c).StartTask?
  {
    var conn := s.conns[c];
    var spec := Mail(s, c).spec;
    WithConn(s, c, conn.(got := conn.got + 1, tasks := conn.tasks[spec.task := Received(spec)]))
  }

  function DoKillSucceeds(s: Sys, c: nat): Sys
    requires HasMail(s, c) && Mail(s, c).KillTask?
  {
    WithConn(s, c, s.conns[c].(got := s.conns[c].got + 1))
  }

  /** No such process, or the signal could not be sent: the worker reports an error for the task. */
  function DoKillFails(s: Sys, c: nat, message: string): Sys
    requires HasMail(s, c) && Mail(s, c).KillTask?
  {
    var conn := s.conns[c];
    var report := Error(WorkerError(Some(conn.node), Some(Mail(s, c).task), message));
    WithConn(s, c, conn.(got := conn.got + 1, sent := conn.sent + [report]))
  }

  predicate IsReceived(s: Sys, c: nat, t: TaskId) {
    c in s.conns && t in s.conns[c].tasks && s.conns[c].tasks[t].Received?
  }

  predicate IsLive(s: Sys, c: nat, t: TaskId) {
    c in s.conns && t in s.conns[c].tasks && s.conns[c].tasks[t].Live?
  }

  function WithTask(s: Sys, c: nat, t: TaskId, task: WorkerTask, out: seq<WorkerMessage>): Sys
    requires c in s.conns
  {
    var conn := s.conns[c];
    WithConn(s, c, conn.(tasks := conn.tasks[t := task], sent := conn.sent + out))
  }

  /** Denied by the policy, or the sandbox or the spawn failed. */
  function DoReject(s: Sys, c: nat, t: TaskId, message: string): Sys
    requires IsReceived(s, c, t)
  {
    var spec := s.conns[c].tasks[t].spec;
    WithTask(s, c, t, Rejected, [Error(WorkerError(Some(spec.node), Some(spec.task), message))])
  }

  predicate CanSpawn(s: Sys, c: nat, t: TaskId) {
    && IsReceived(s, c, t)
    && s.conns[c].tasks[t].spec.argv != []
    && Authorize(s.conns[c].policy, s.conns[c].tasks[t].spec.argv).Allow?
  }

  function DoSpawn(s: Sys, c: nat, t: TaskId, pid: Option<nat>, now: Time): Sys
    requires CanSpawn(s, c, t)
  {
    var spec := s.conns[c].tasks[t].spec;
    WithTask(s, c, t, Live(spec, [Started(TaskStarted(spec.job, spec.task, spec.node, pid, now))], 0, true), [])
  }

  predicate CanOutput(s: Sys, c: nat, t: TaskId, line: LogLine) {
    && IsLive(s, c, t)
    && line.job == s.conns[c].tasks[t].spec.job
    && line.task == s.conns[c].tasks[t].spec.task
    && line.node == s.conns[c].tasks[t].spec.node
  }

  /** A log reader, which may outlive the process. */
  function DoOutput(s: Sys, c: nat, t: TaskId, line: LogLine): Sys
    requires IsLive(s, c, t)
  {
    var task := s.conns[c].tasks[t];
    WithTask(s, c, t, task.(events := task.events + [Log(line)]), [])
  }

  predicate CanExit(s: Sys, c: nat, t: TaskId) {
    IsLive(s, c, t) && s.conns[c].tasks[t].alive
  }

  function DoExit(s: Sys, c: nat, t: TaskId, exitCode: Option<int>, success: bool, now: Time): Sys
    requires IsLive(s, c, t)
  {
    var task := s.conns[c].tasks[t];
    var spec := task.spec;
    WithTask(s, c, t,
      task.(events := task.events + [Exited(TaskExited(spec.job, spec.task, spec.node, exitCode, success, now))],
            alive := false), [])
  }

  predicate CanForward(s: Sys, c: nat, t: TaskId) {
    IsLive(s, c, t) && s.conns[c].tasks[t].forwarded < |s.conns[c].tasks[t].events|
  }

  function DoForward(s: Sys, c: nat, t: TaskId): Sys
    requires CanForward(s, c, t)
  {
    var task := s.conns[c].tasks[t];
    WithTask(s, c, t, task.(forwarded := task.forwarded + 1), [task.events[task.forwarded]])
  }

  /** A worker that does not follow the program: any message at all. */
  function DoForge(s: Sys, c: nat, forged: WorkerMessage): Sys
    requires c in s.conns
  {
    WithConn(s, c, s.conns[c].(sent := s.conns[c].sent + [forged]))
  }

  // ---- Clients ----

  function DoSubscribe(s: Sys, r: nat): Sys {
    WithRun(s, r,
      Run(Subscribed, |s.core.events|, JobId(""), [], [], 0, false, Waiting({}, [], []), false))
  }

  /** Fresh identifiers: what a random UUID stands for. */
  ghost predicate Unused(s: Sys, job: JobId, ids: seq<TaskId>) {
    && FreshIds(s.core, ids)
    && (forall i :: 0 <= i < |ids| ==> ids[i] !in s.placed)
    && (forall t :: t in s.core.rows ==> s.core.rows[t].job != job)
    && (forall r :: r in s.runs ==> s.runs[r].phase.Subscribed? || s.runs[r].job != job)
  }

  /** The locked section of `run_process`. It is left early when an error response cannot be delivered: then only
      `upto` of the selected nodes were handled, and the next one was not connected. */
  ghost predicate CanDispatch(
      s: Sys, r: nat, request: RunRequest, job: JobId, selected: seq<NodeId>, upto: nat, ids: seq<TaskId>,
      clock: seq<Time>)
  {
    && r in s.runs && s.runs[r].phase.Subscribed?
    && (exists order :: IsNodeOrder(order, s.core.nodes) && SelectNodes(s.core, request, order) == Selected(selected))
    && upto <= |selected| <= |ids| == |clock|
    && (upto < |selected| ==> selected[upto] !in s.core.nodes)
    && Unused(s, job, ids)
  }

  function Places(r: nat, assignments: seq<TaskAssignment>, dispatch: seq<(nat, RunSpec)>): map<TaskId, Place>
    requires |assignments| == |dispatch|
  {
    if assignments == [] then map[]
    else
      var last := |assignments| - 1;
      Places(r, assignments[..last], dispatch[..last])
        [assignments[last].task := Place(assignments[last].job, assignments[last].node, dispatch[last].0, r, last)]
  }

  ghost function DoDispatch(
      s: Sys, r: nat, request: RunRequest, job: JobId, selected: seq<NodeId>, upto: nat, ids: seq<TaskId>,
      clock: seq<Time>): Sys
    requires CanDispatch(s, r, request, job, selected, upto, ids, clock)
  {
    var p := PlaceAll(s.core, request, job, selected[..upto], ids, clock);
    var phase := if upto < |selected| || p.assignments == [] then Stopped else Dispatching;
    WithRun(s, r,
      s.runs[r].(phase := phase, job := job, assignments := p.assignments, dispatch := p.dispatch,
        wait := request.wait))
      .(core := p.core, placed := s.placed + Places(r, p.assignments, p.dispatch))
  }

  predicate CanSendStart(s: Sys, r: nat) {
    && r in s.runs && s.runs[r].phase.Dispatching? && s.runs[r].next < |s.runs[r].dispatch|
    && s.runs[r].dispatch[s.runs[r].next].0 in s.conns
    && s.conns[s.runs[r].dispatch[s.runs[r].next].0].open
  }

  function Post(s: Sys, c: nat, message: CoordinatorMessage): Sys
    requires c in s.conns
  {
    WithConn(s, c, s.conns[c].(inbox := s.conns[c].inbox + [message]))
  }

  function DoSendStart(s: Sys, r: nat): Sys
    requires CanSendStart(s, r)
  {
    var run := s.runs[r];
    WithRun(Post(s, run.dispatch[run.next].0, StartTask(run.dispatch[run.next].1)), r, run.(next := run.next + 1))
  }

  predicate CanFollow(s: Sys, r: nat) {
    r in s.runs && s.runs[r].phase.Dispatching? && s.runs[r].next == |s.runs[r].dispatch|
  }

  function DoFollow(s: Sys, r: nat): Sys
    requires CanFollow(s, r)
  {
    var run := s.runs[r];
    WithRun(s, r, run.(phase := if run.wait then Following else Stopped, waiting := WaitLoop.Start(run.assignments)))
  }

  predicate CanReadEvent(s: Sys, r: nat) {
    && r in s.runs && s.runs[r].phase.Following? && s.runs[r].waiting.pending != {}
    && s.runs[r].cursor < |s.core.events|
  }

  function DoReadEvent(s: Sys, r: nat): Sys
    requires CanReadEvent(s, r)
  {
    var run := s.runs[r];
    WithRun(s, r, run.(waiting := WaitStep(run.waiting, s.core.events[run.cursor]), cursor := run.cursor + 1))
  }

  predicate CanFinish(s: Sys, r: nat) {
    r in s.runs && s.runs[r].phase.Following? && s.runs[r].waiting.pending == {}
  }

  /** JobFinished is sent. */
  function DoFinish(s: Sys, r: nat): Sys
    requires CanFinish(s, r)
  {
    var run := s.runs[r];
    WithRun(s, r, run.(phase := Finished, success := forall e :: e in run.waiting.exits ==> e.success))
  }

  /** The request was refused, the client went away, its subscription lagged, or a worker's channel was closed. */
  predicate CanStop(s: Sys, r: nat) {
    r in s.runs && !s.runs[r].phase.Finished? && !s.runs[r].phase.Subscribed?
  }

  function DoStop(s: Sys, r: nat): Sys
    requires CanStop(s, r)
  {
    WithRun(s, r, s.runs[r].(phase := Stopped))
  }

  ghost predicate CanKillJob(s: Sys, k: nat, job: JobId, targets: seq<(NodeId, TaskId)>) {
    && k !in s.kills
    && (forall i :: 0 <= i < |targets| ==> targets[i] in KillTargets(s.core.nodes, job))
  }

  function Addressed(nodes: map<NodeId, Handle>, targets: seq<(NodeId, TaskId)>): seq<(nat, TaskId)>
    requires forall i :: 0 <= i < |targets| ==> targets[i].0 in nodes
  {
    seq(|targets|, i requires 0 <= i < |targets| => (nodes[targets[i].0].conn, targets[i].1))
  }

  ghost function DoKillJob(s: Sys, k: nat, job: JobId, targets: seq<(NodeId, TaskId)>): Sys
    requires CanKillJob(s, k, job, targets)
  {
    s.(kills := s.kills[k := Addressed(s.core.nodes, targets)])
  }

  predicate CanSendKill(s: Sys, k: nat) {
    k in s.kills && s.kills[k] != [] && s.kills[k][0].0 in s.conns && s.conns[s.kills[k][0].0].open
  }

  function DoSendKill(s: Sys, k: nat): Sys
    requires CanSendKill(s, k)
  {
    Post(s, s.kills[k][0].0, KillTask(s.kills[k][0].1)).(kills := s.kills[k := s.kills[k][1..]])
  }

  ghost predicate CanLease(s: Sys, names: seq<NodeId>, id: LeaseId) {
    IsNodeOrder(names, s.core.nodes) && id !in s.core.leases
  }

  function DoLease(s: Sys, names: seq<NodeId>, lease: LeaseRequest, id: LeaseId): Sys {
    s.(core := LeaseCreated(s.core, names, lease, id))
  }

  // ---- Runs of the whole system ----

  ghost predicate NextWire(s: Sys, step: WireStep, s': Sys) {
    match step
    case Register(c, node, policy) => c !in s.conns && s' == DoRegister(s, c, node, policy)
    case ReadMessage(c, now) => CanRead(s, c) && s' == DoRead(s, c, now)
    case Continue(c, now) => CanContinue(s, c) && s' == DoContinue(s, c, now)
    case ReadError(c) => CanLeave(s, c) && s' == DoReadError(s, c)
    case Disconnect(c, order) => CanDisconnect(s, c, order) && s' == DoDisconnect(s, c, order)
  }

  predicate NextWork(s: Sys, c: nat, step: WorkStep, s': Sys) {
    match step
    case Receive => HasMail(s, c) && Mail(s, c).StartTask? && s' == DoReceive(s, c)
    case KillSucceeds => HasMail(s, c) && Mail(s, c).KillTask? && s' == DoKillSucceeds(s, c)
    case KillFails(message) => HasMail(s, c) && Mail(s, c).KillTask? && s' == DoKillFails(s, c, message)
    case Reject(t, message) => IsReceived(s, c, t) && s' == DoReject(s, c, t, message)
    case Spawn(t, pid, now) => CanSpawn(s, c, t) && s' == DoSpawn(s, c, t, pid, now)
    case Output(t, line) => CanOutput(s, c, t, line) && s' == DoOutput(s, c, t, line)
    case Exit(t, exitCode, success, now) => CanExit(s, c, t) && s' == DoExit(s, c, t, exitCode, success, now)
    case Forward(t) => CanForward(s, c, t) && s' == DoForward(s, c, t)
    case Forge(forged) => c in s.conns && s' == DoForge(s, c, forged)
  }

  ghost predicate NextClient(s: Sys, step: ClientStep, s': Sys) {
    match step
    case Subscribe(r) => r !in s.runs && s' == DoSubscribe(s, r)
    case SendStart(r) => CanSendStart(s, r) && s' == DoSendStart(s, r)
    case Follow(r) => CanFollow(s, r) && s' == DoFollow(s, r)
    case ReadEvent(r) => CanReadEvent(s, r) && s' == DoReadEvent(s, r)
    case FinishRun(r) => CanFinish(s, r) && s' == DoFinish(s, r)
    case Stop(r) => CanStop(s, r) && s' == DoStop(s, r)
    case KillJob(k, job, targets) => CanKillJob(s, k, job, targets) && s' == DoKillJob(s, k, job, targets)
    case SendKill(k) => CanSendKill(s, k) && s' == DoSendKill(s, k)
    case CreateLease(names, lease, id) => CanLease(s, names, id) && s' == DoLease(s, names, lease, id)
    case ReleaseLease(id) => s' == s.(core := LeaseReleased(s.core, id))
  }

  ghost predicate Next(s: Sys, step: Step, s': Sys) {
    match step
    case Wire(wire) => NextWire(s, wire, s')
    case Work(c, work) => NextWork(s, c, work, s')
    case Client(call) => NextClient(s, call, s')
    case Dispatch(r, request, job, selected, upto, ids, clock) =>
      && CanDispatch(s, r, request, job, selected, upto, ids, clock)
      && s' == DoDispatch(s, r, request, job, selected, upto, ids, clock)
  }

  /** A coordinator that has just started; rows of an earlier one may be there, all of them finished. */
  ghost predicate Init(s: Sys) {
    && s.core.nodes == map[] && s.core.leases == map[] && s.core.events == []
    && s.conns == map[] && s.runs == map[] && s.kills == map[] && s.placed == map[]
    && (forall t :: t in s.core.rows ==> !Unfinished(s.core.rows[t].status))
  }

  /** `states[i + 1]` is reached from `states[i]` by `steps[i]`. */
  ghost predicate Execution(states: seq<Sys>, steps: seq<Step>) {
    && |states| == |steps| + 1
    && Init(states[0])
    && (forall i :: 0 <= i < |steps| ==> Next(states[i], steps[i], states[i + 1]))
  }
}
