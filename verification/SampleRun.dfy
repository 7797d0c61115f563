/** The promises are not empty: every command a worker's policy allows can run from registration to JobFinished. */
module SampleRun {
  import opened Protocol
  import opened JobStore
  import opened CoordinatorCore
  import opened WaitLoop
  import opened Policy
  import opened Cluster
  import opened Lifecycle
  import opened WakeUp
  import opened IndexInvariant
  import opened Guarantees

  lemma OneMoreStep(s: Sys, step: Step, s': Sys)
    requires Reachable(s) && Next(s, step, s') && Honest(s, step)
    ensures Reachable(s')
  {
    hide Next, Honest;
    var states, steps :| HonestRun(states, steps) && states[|steps|] == s;
    HonestMore(states, steps, step, s');
    assert (states + [s'])[|steps + [step]|] == s';
  }

  lemma HonestMore(states: seq<Sys>, steps: seq<Step>, step: Step, s': Sys)
    requires HonestRun(states, steps) && Next(states[|steps|], step, s') && Honest(states[|steps|], step)
    ensures HonestRun(states + [s'], steps + [step])
  {
    hide Next, Honest, Init;
    var states', steps' := states + [s'], steps + [step];
    forall i | 0 <= i < |steps'| ensures Next(states'[i], steps'[i], states'[i + 1]) && Honest(states'[i], steps'[i]) {
      if i < |steps| {
        assert Next(states[i], steps[i], states[i + 1]) && Honest(states[i], steps[i]);
      }
    }
  }

  lemma StartIsReachable(s: Sys)
    requires Init(s)
    ensures Reachable(s)
  {
    var none: seq<Step> := [];
    assert HonestRun([s], none) && [s][|none|] == s;
  }

  /** One connection and one run, both numbered 0. */
  function Single(core: Core, conn: Conn, run: Run, placed: Placed): Sys {
    Sys(core, map[0 := conn], map[0 := run], map[], placed)
  }

  datatype Job = Job(n: NodeId, t: TaskId, job: JobId, argv: seq<string>, policy: PolicyConfig)

  function Request(j: Job): RunRequest {
    RunRequest([j.n], j.argv, None, map[], map[], None, None, true)
  }

  function Spec(j: Job): RunSpec {
    SpecFor(Request(j), j.job, j.t, j.n)
  }

  function StartOf(j: Job): TaskStarted { TaskStarted(j.job, j.t, j.n, None, 0) }

  function ExitOf(j: Job): TaskExited { TaskExited(j.job, j.t, j.n, Some(0), true, 0) }

  function Placed1(j: Job): Placed { map[j.t := Cluster.Place(j.job, j.n, 0, 0, 0)] }

  function QueuedRow(j: Job): Row { Row(j.job, j.n, Queued, Some(0), None, None, None) }

  function BaseConn(j: Job): Conn { Conn(j.n, j.policy, Idle, true, true, [], 0, [], 0, map[]) }

  function CoreWith(j: Job, running: map<TaskId, JobId>, rows: Rows, events: seq<CoordinatorEvent>): Core {
    Core(map[j.n := Handle(0, running)], map[], rows, [], events)
  }

  function Assignments(j: Job): seq<TaskAssignment> { [TaskAssignment(j.job, j.t, j.n)] }

  function BaseRun(j: Job): Run {
    Run(Dispatching, 0, j.job, Assignments(j), [(0, Spec(j))], 0, true, Waiting({}, [], []), false)
  }

  // ---- The coordinator places the task ----

  function Registered(j: Job): Sys {
    var run := Run(Subscribed, 0, JobId(""), [], [], 0, false, Waiting({}, [], []), false);
    Single(CoreWith(j, map[], map[], []), BaseConn(j), run, map[])
  }

  lemma ToRegistered(j: Job)
    ensures Reachable(Registered(j))
  {
    hide Reachable;
    var s0 := Sys(Core(map[], map[], map[], [], []), map[], map[], map[], map[]);
    StartIsReachable(s0);
    var s1 := DoRegister(s0, 0, j.n, j.policy);
    OneMoreStep(s0, Wire(Register(0, j.n, j.policy)), s1);
    var s2 := DoSubscribe(s1, 0);
    OneMoreStep(s1, Client(Subscribe(0)), s2);
    assert s2 == Registered(j);
  }

  function Dispatched1(j: Job): Sys {
    Single(CoreWith(j, map[j.t := j.job], map[j.t := QueuedRow(j)], []), BaseConn(j), BaseRun(j), Placed1(j))
  }

  lemma DispatchesOne(j: Job)
    requires j.argv != []
    ensures CanDispatch(Registered(j), 0, Request(j), j.job, [j.n], 1, [j.t], [0])
  {
    var core := Registered(j).core;
    assert IsNodeOrder([j.n], core.nodes) && SelectNodes(core, Request(j), [j.n]) == Selected([j.n]);
  }

  lemma ToDispatched(j: Job)
    requires j.argv != []
    ensures Reachable(Dispatched1(j))
  {
    ToRegistered(j);
    var s := Registered(j);
    DispatchesOne(j);
    PlacesOne(j);
    hide Reachable, CanDispatch, PlaceAll, Places;
    var s' := DoDispatch(s, 0, Request(j), j.job, [j.n], 1, [j.t], [0]);
    OneMoreStep(s, Dispatch(0, Request(j), j.job, [j.n], 1, [j.t], [0]), s');
    assert s' == Dispatched1(j);
  }

  lemma PlacesOne(j: Job)
    ensures var p := PlaceAll(Registered(j).core, Request(j), j.job, [j.n][..1], [j.t], [0]);
      && p == Placement(Dispatched1(j).core, Assignments(j), [(0, Spec(j))], [])
      && Places(0, p.assignments, p.dispatch) == Placed1(j)
  {
    assert [j.n][..1][..0] == [];
    assert Assignments(j)[..0] == [];
  }

  // ---- The worker runs it ----

  function Posted1(j: Job): Sys {
    var run := BaseRun(j).(next := 1, phase := Following, waiting := Start(Assignments(j)));
    Single(Dispatched1(j).core, BaseConn(j).(inbox := [StartTask(Spec(j))]), run, Placed1(j))
  }

  lemma ToPosted(j: Job)
    requires j.argv != []
    ensures Reachable(Posted1(j))
  {
    ToDispatched(j);
    hide Reachable;
    var s := Dispatched1(j);
    var s1 := DoSendStart(s, 0);
    OneMoreStep(s, Client(SendStart(0)), s1);
    var s2 := DoFollow(s1, 0);
    OneMoreStep(s1, Client(Follow(0)), s2);
    assert s2.conns[0] == Posted1(j).conns[0];
    assert s2.runs[0] == Posted1(j).runs[0];
    assert s2 == Posted1(j);
  }

  /** What the worker has sent and how far it is with the task. */
  function AtWorker(j: Job, sent: seq<WorkerMessage>, task: WorkerTask): Sys {
    var conn := Posted1(j).conns[0].(got := 1, sent := sent, tasks := map[j.t := task]);
    Posted1(j).(conns := map[0 := conn])
  }

  lemma ToReceived(j: Job)
    requires j.argv != []
    ensures Reachable(AtWorker(j, [], Received(Spec(j))))
  {
    ToPosted(j);
    hide Reachable;
    var s := Posted1(j);
    var s1 := DoReceive(s, 0);
    OneMoreStep(s, Work(0, Receive), s1);
    assert s1.conns[0] == AtWorker(j, [], Received(Spec(j))).conns[0];
    assert s1 == AtWorker(j, [], Received(Spec(j)));
  }

  /** A step on the task that puts `out` into the channel. */
  lemma WorkerMoves(
      j: Job, sent: seq<WorkerMessage>, task: WorkerTask, step: WorkStep, task': WorkerTask, out: seq<WorkerMessage>)
    requires Reachable(AtWorker(j, sent, task))
    requires NextWork(AtWorker(j, sent, task), 0, step, WithTask(AtWorker(j, sent, task), 0, j.t, task', out))
    requires Honest(AtWorker(j, sent, task), Work(0, step))
    ensures Reachable(AtWorker(j, sent + out, task'))
  {
    hide Reachable, NextWork, Honest;
    var s, s' := AtWorker(j, sent, task), WithTask(AtWorker(j, sent, task), 0, j.t, task', out);
    OneMoreStep(s, Work(0, step), s');
    assert s'.conns[0].tasks == map[j.t := task'];
    assert s'.conns[0] == AtWorker(j, sent + out, task').conns[0];
    assert s' == AtWorker(j, sent + out, task');
  }

  lemma ToExited(j: Job)
    requires j.argv != [] && Authorize(j.policy, j.argv).Allow?
    ensures Reachable(AtWorker(j, [], Live(Spec(j), [Started(StartOf(j)), Exited(ExitOf(j))], 0, false)))
  {
    ToReceived(j);
    hide Reachable, Authorize;
    var start, exit := Started(StartOf(j)), Exited(ExitOf(j));
    WorkerMoves(j, [], Received(Spec(j)), Spawn(j.t, None, 0), Live(Spec(j), [start], 0, true), []);
    var none: seq<WorkerMessage> := [];
    assert none + none == none;
    assert [start] + [exit] == [start, exit];
    WorkerMoves(j, [], Live(Spec(j), [start], 0, true), Exit(j.t, Some(0), true, 0),
      Live(Spec(j), [start, exit], 0, false), []);
  }

  function Ran(j: Job): Sys {
    var events := [Started(StartOf(j)), Exited(ExitOf(j))];
    AtWorker(j, events, Live(Spec(j), events, 2, false))
  }

  lemma ForwardsNext(j: Job, events: seq<WorkerMessage>, k: nat)
    requires k < |events| && Reachable(AtWorker(j, events[..k], Live(Spec(j), events, k, false)))
    ensures Reachable(AtWorker(j, events[..k + 1], Live(Spec(j), events, k + 1, false)))
  {
    hide Reachable;
    WorkerMoves(j, events[..k], Live(Spec(j), events, k, false), Forward(j.t),
      Live(Spec(j), events, k + 1, false), [events[k]]);
    assert events[..k] + [events[k]] == events[..k + 1];
  }

  lemma ToRan(j: Job)
    requires j.argv != [] && Authorize(j.policy, j.argv).Allow?
    ensures Reachable(Ran(j))
  {
    ToExited(j);
    hide Reachable, Authorize;
    var events := [Started(StartOf(j)), Exited(ExitOf(j))];
    assert events[..0] == [] && events[..2] == events;
    ForwardsNext(j, events, 0);
    ForwardsNext(j, events, 1);
  }

  // ---- The coordinator hears of it, and so does the client ----

  /** What the coordinator has made of the first `read` messages. */
  function Hearing(j: Job, core: Core, cont: Cont, read: nat): Sys {
    Ran(j).(core := core, conns := map[0 := Ran(j).conns[0].(read := read, cont := cont)])
  }

  lemma HearsNext(j: Job, core: Core, read: nat)
    requires Reachable(Hearing(j, core, Idle, read)) && read < 2
    ensures var (core', cont') := Read(core, Ran(j).conns[0].sent[read], 0);
      Reachable(Hearing(j, core', cont', read + 1))
  {
    hide Reachable, Read;
    var s := Hearing(j, core, Idle, read);
    var (core', cont') := Read(core, Ran(j).conns[0].sent[read], 0);
    var s' := DoRead(s, 0, 0);
    OneMoreStep(s, Wire(ReadMessage(0, 0)), s');
    assert s'.conns[0] == Hearing(j, core', cont', read + 1).conns[0];
    assert s' == Hearing(j, core', cont', read + 1);
  }

  lemma Continues(j: Job, core: Core, cont: Cont, read: nat)
    requires Reachable(Hearing(j, core, cont, read)) && !cont.Idle? && !cont.Gone?
    ensures var (core', cont') := Advance(core, cont, 0); Reachable(Hearing(j, core', cont', read))
  {
    hide Reachable, Advance;
    var s := Hearing(j, core, cont, read);
    var (core', cont') := Advance(core, cont, 0);
    var s' := DoContinue(s, 0, 0);
    OneMoreStep(s, Wire(Continue(0, 0)), s');
    assert s'.conns[0] == Hearing(j, core', cont', read).conns[0];
    assert s' == Hearing(j, core', cont', read);
  }

  function HeardStart(j: Job): Core {
    CoreWith(j, map[j.t := j.job], map[j.t := QueuedRow(j).(status := Running, started := Some(0))],
      [StartedEvent(StartOf(j))])
  }

  /** The three sections of a start and of an exit. */
  predicate InThree(core: Core, message: WorkerMessage, after: Core) {
    var (core1, cont1) := Read(core, message, 0);
    var (core2, cont2) := Advance(core1, cont1, 0);
    !cont1.Idle? && !cont1.Gone? && !cont2.Idle? && !cont2.Gone? && Advance(core2, cont2, 0) == (after, Idle)
  }

  lemma HeardInThree(j: Job, core: Core, read: nat, after: Core)
    requires Reachable(Hearing(j, core, Idle, read)) && read < 2
    requires InThree(core, Ran(j).conns[0].sent[read], after)
    ensures Reachable(Hearing(j, after, Idle, read + 1))
  {
    hide Reachable, Read, Advance, Hearing;
    HearsNext(j, core, read);
    var (core1, cont1) := Read(core, Ran(j).conns[0].sent[read], 0);
    Continues(j, core1, cont1, read + 1);
    var (core2, cont2) := Advance(core1, cont1, 0);
    Continues(j, core2, cont2, read + 1);
  }

  lemma StartInThree(j: Job)
    ensures InThree(Dispatched1(j).core, Started(StartOf(j)), HeardStart(j))
  {
    var core := Dispatched1(j).core;
    var running := map[j.t := j.job];
    assert running[j.t := j.job] == running;
    assert Index(core.nodes, j.n, j.t, j.job) == core.nodes;
    assert RowStarted(core.rows, StartOf(j)) == HeardStart(j).rows;
    assert [] + [StartedEvent(StartOf(j))] == [StartedEvent(StartOf(j))];
  }

  lemma ToHeardStart(j: Job)
    requires j.argv != [] && Authorize(j.policy, j.argv).Allow?
    ensures Reachable(Hearing(j, HeardStart(j), Idle, 1))
  {
    ToRan(j);
    hide Reachable, Authorize, InThree;
    var core := Dispatched1(j).core;
    assert Hearing(j, core, Idle, 0) == Ran(j) by {
      assert Hearing(j, core, Idle, 0).conns[0] == Ran(j).conns[0];
    }
    StartInThree(j);
    HeardInThree(j, core, 0, HeardStart(j));
  }

  function Heard(j: Job): Core {
    var row := QueuedRow(j).(status := Succeeded, started := Some(0), exited := Some(0), exitCode := Some(0));
    CoreWith(j, map[], map[j.t := row], [StartedEvent(StartOf(j)), ExitedEvent(ExitOf(j))])
  }

  lemma ExitInThree(j: Job)
    ensures InThree(HeardStart(j), Exited(ExitOf(j)), Heard(j))
  {
    var core := HeardStart(j);
    var running := map[j.t := j.job];
    assert running - {j.t} == map[];
    assert Unindex(core.nodes, j.n, j.t) == Heard(j).nodes;
    assert RowExited(core.rows, ExitOf(j)) == Heard(j).rows;
    assert core.events + [ExitedEvent(ExitOf(j))] == Heard(j).events;
  }

  lemma ToHeard(j: Job)
    requires j.argv != [] && Authorize(j.policy, j.argv).Allow?
    ensures Reachable(Hearing(j, Heard(j), Idle, 2))
  {
    ToHeardStart(j);
    hide Reachable, Authorize, InThree;
    ExitInThree(j);
    HeardInThree(j, HeardStart(j), 1, Heard(j));
  }

  lemma WaitsForBoth(j: Job)
    ensures var w1 := WaitStep(Start(Assignments(j)), StartedEvent(StartOf(j)));
      var w2 := WaitStep(w1, ExitedEvent(ExitOf(j)));
      w1.pending == {j.t} && w2.pending == {} && w2.exits == [ExitOf(j)]
  {
    assert TaskAssignment(j.job, j.t, j.n) in Assignments(j);
    assert Assigned(Assignments(j)) == {j.t};
  }

  /** The client has read `cursor` events. */
  function Following1(j: Job, waiting: Waiting, cursor: nat): Sys {
    var s := Hearing(j, Heard(j), Idle, 2);
    s.(runs := map[0 := Posted1(j).runs[0].(waiting := waiting, cursor := cursor)])
  }

  lemma ReadsNext(j: Job, waiting: Waiting, cursor: nat)
    requires Reachable(Following1(j, waiting, cursor)) && waiting.pending != {} && cursor < 2
    ensures Reachable(Following1(j, WaitStep(waiting, Heard(j).events[cursor]), cursor + 1))
  {
    hide Reachable, WaitStep;
    var s := Following1(j, waiting, cursor);
    var s' := DoReadEvent(s, 0);
    OneMoreStep(s, Client(ReadEvent(0)), s');
    var after := Following1(j, WaitStep(waiting, Heard(j).events[cursor]), cursor + 1);
    assert s'.runs[0] == after.runs[0];
    assert s' == after;
  }

  lemma NothingReadYet(j: Job)
    ensures Following1(j, Start(Assignments(j)), 0) == Hearing(j, Heard(j), Idle, 2)
    ensures Heard(j).events == [StartedEvent(StartOf(j)), ExitedEvent(ExitOf(j))]
  {
    assert Following1(j, Start(Assignments(j)), 0).runs[0] == Hearing(j, Heard(j), Idle, 2).runs[0];
  }

  lemma ToRead(j: Job, waiting: Waiting)
    requires j.argv != [] && Authorize(j.policy, j.argv).Allow?
    requires waiting == WaitStep(WaitStep(Start(Assignments(j)), StartedEvent(StartOf(j))), ExitedEvent(ExitOf(j)))
    ensures Reachable(Following1(j, waiting, 2)) && waiting.pending == {} && waiting.exits == [ExitOf(j)]
  {
    ToHeard(j);
    WaitsForBoth(j);
    StartsWaiting(j);
    hide Reachable, Authorize, WaitStep, Start;
    NothingReadYet(j);
    hide Following1, Hearing, Assignments, StartOf, ExitOf, Heard;
    ReadsNext(j, Start(Assignments(j)), 0);
    ReadsNext(j, WaitStep(Start(Assignments(j)), StartedEvent(StartOf(j))), 1);
  }

  lemma StartsWaiting(j: Job)
    ensures Start(Assignments(j)).pending != {}
  {
    assert TaskAssignment(j.job, j.t, j.n) in Assignments(j);
    assert j.t in Assigned(Assignments(j));
  }

  /** Whatever the names, for every command that the policy allows some honest run ends with JobFinished and success. */
  lemma AllowedJobCanFinish(j: Job)
    requires j.argv != [] && Authorize(j.policy, j.argv).Allow?
    ensures exists s :: Reachable(s) && 0 in s.runs && s.runs[0].job == j.job
              && s.runs[0].phase.Finished? && s.runs[0].success
              && j.t in s.core.rows && s.core.rows[j.t].status.Succeeded?
  {
    hide Reachable, Authorize, WaitStep, Start;
    var waiting := WaitStep(WaitStep(Start(Assignments(j)), StartedEvent(StartOf(j))), ExitedEvent(ExitOf(j)));
    ToRead(j, waiting);
    var s := Following1(j, waiting, 2);
    var s' := DoFinish(s, 0);
    OneMoreStep(s, Client(FinishRun(0)), s');
  }

  // ---- Where the promises end ----

  /** A second registration under the same id, while a task is queued: the client that awaits the task is covered before
      and not after, and the queued row is in no index. */
  lemma ReRegistrationLosesTask(j: Job, policy: PolicyConfig)
    requires j.argv != []
    ensures var s, step := Dispatched1(j), Wire(Register(1, j.n, policy));
      var s' := DoRegister(s, 1, j.n, policy);
      && Reachable(s) && Next(s, step, s') && WakeInv(s) && !WakeInv(s')
      && Quiet(s') && !Agree(s'.core.nodes, s'.core.rows)
  {
    ToDispatched(j);
    hide Reachable;
    var s, s' := Dispatched1(j), DoRegister(Dispatched1(j), 1, j.n, policy);
    assert TaskAssignment(j.job, j.t, j.n) in Assignments(j);
    assert Awaits(s.runs[0]) == {j.t} && Awaits(s'.runs[0]) == {j.t};
    assert Indexed(s.core.nodes, j.t);
    assert s'.core.nodes[j.n].running == map[];
    assert !Indexed(s'.core.nodes, j.t);
    assert !Covered(s', 0, j.t);
    assert Unfinished(s'.core.rows[j.t].status);
  }

  lemma EchoMore(states: seq<Sys>, steps: seq<Step>, step: Step, s': Sys)
    requires EchoingRun(states, steps) && Next(states[|steps|], step, s') && Echoing(states[|steps|], step)
    ensures EchoingRun(states + [s'], steps + [step])
  {
    hide Next, Echoing, Init;
    var states', steps' := states + [s'], steps + [step];
    forall i | 0 <= i < |steps'| ensures Next(states'[i], steps'[i], states'[i + 1]) && Echoing(states'[i], steps'[i]) {
      if i < |steps| {
        assert Next(states[i], steps[i], states[i + 1]) && Echoing(states[i], steps[i]);
      }
    }
  }

  /** Some run of workers that echo their ids passes through `earlier` on its way to `later`. */
  ghost predicate Leads(earlier: Sys, later: Sys) {
    exists states, steps, i: nat :: PassesThrough(states, steps, i, earlier, later)
  }

  ghost predicate PassesThrough(states: seq<Sys>, steps: seq<Step>, i: nat, earlier: Sys, later: Sys) {
    EchoingRun(states, steps) && i <= |steps| && states[i] == earlier && states[|steps|] == later
  }

  lemma LeadsMore(earlier: Sys, s: Sys, step: Step, s': Sys)
    requires Leads(earlier, s) && Next(s, step, s') && Echoing(s, step)
    ensures Leads(earlier, s')
  {
    var states, steps, i: nat :| PassesThrough(states, steps, i, earlier, s);
    EchoMore(states, steps, step, s');
    assert PassesThrough(states + [s'], steps + [step], i, earlier, s');
  }

  lemma LeadsToItself(s: Sys)
    requires Reachable(s)
    ensures Leads(s, s)
  {
    var states, steps :| HonestRun(states, steps) && states[|steps|] == s;
    HonestRunEchoes(states, steps);
    assert PassesThrough(states, steps, |steps|, s, s);
  }

  lemma LeadsAnew(earlier: Sys, s: Sys)
    requires Leads(earlier, s)
    ensures Leads(s, s)
  {
    var states, steps, i: nat :| PassesThrough(states, steps, i, earlier, s);
    assert PassesThrough(states, steps, |steps|, s, s);
  }

  // ---- A kill that comes too early ----

  /** The state of the run while a kill is on its way: the coordinator's state, the connection, the pending kills. */
  function Killing(j: Job, core: Core, conn: Conn, kills: seq<(nat, TaskId)>): Sys {
    Posted1(j).(core := core, conns := map[0 := conn], kills := map[0 := kills])
  }

  /** The worker end: the StartTask is taken, the KillTask follows it. */
  function KillConn(j: Job, cont: Cont, read: nat, got: nat, sent: seq<WorkerMessage>, task: WorkerTask): Conn {
    BaseConn(j).(cont := cont, read := read, got := got, sent := sent, tasks := map[j.t := task],
                 inbox := [StartTask(Spec(j)), KillTask(j.t)])
  }

  function Report(j: Job): WorkerError { WorkerError(Some(j.n), Some(j.t), "") }

  lemma ToKillAsked(j: Job)
    requires j.argv != []
    ensures var s := AtWorker(j, [], Received(Spec(j))); Leads(s, s.(kills := map[0 := [(0, j.t)]]))
  {
    ToReceived(j);
    var s := AtWorker(j, [], Received(Spec(j)));
    LeadsToItself(s);
    hide Leads, Reachable;
    assert (j.n, j.t) in KillTargets(s.core.nodes, j.job);
    var s' := DoKillJob(s, 0, j.job, [(j.n, j.t)]);
    LeadsMore(s, s, Client(KillJob(0, j.job, [(j.n, j.t)])), s');
    assert s'.kills[0] == [(0, j.t)];
    assert s' == s.(kills := map[0 := [(0, j.t)]]);
  }

  lemma ToKillPosted(j: Job)
    requires j.argv != []
    ensures var s := AtWorker(j, [], Received(Spec(j)));
      Leads(s, Killing(j, Dispatched1(j).core, KillConn(j, Idle, 0, 1, [], Received(Spec(j))), []))
  {
    var first := AtWorker(j, [], Received(Spec(j)));
    ToKillAsked(j);
    hide Leads;
    var s := first.(kills := map[0 := [(0, j.t)]]);
    var s' := DoSendKill(s, 0);
    LeadsMore(first, s, Client(SendKill(0)), s');
    assert s'.conns[0] == KillConn(j, Idle, 0, 1, [], Received(Spec(j)));
    assert s'.kills[0] == [];
    assert s' == Killing(j, Dispatched1(j).core, KillConn(j, Idle, 0, 1, [], Received(Spec(j))), []);
  }

  lemma KillIsAnswered(j: Job, earlier: Sys)
    requires Leads(earlier, Killing(j, Dispatched1(j).core, KillConn(j, Idle, 0, 1, [], Received(Spec(j))), []))
    ensures var conn := KillConn(j, Idle, 0, 2, [Error(Report(j))], Received(Spec(j)));
      Leads(earlier, Killing(j, Dispatched1(j).core, conn, []))
  {
    hide Leads;
    var s := Killing(j, Dispatched1(j).core, KillConn(j, Idle, 0, 1, [], Received(Spec(j))), []);
    var s' := DoKillFails(s, 0, "");
    LeadsMore(earlier, s, Work(0, KillFails("")), s');
    var conn := KillConn(j, Idle, 0, 2, [Error(Report(j))], Received(Spec(j)));
    assert s'.conns[0] == conn;
    assert s' == Killing(j, Dispatched1(j).core, conn, []);
  }

  lemma KillRead(j: Job, earlier: Sys, core: Core, read: nat, sent: seq<WorkerMessage>, task: WorkerTask)
    requires Leads(earlier, Killing(j, core, KillConn(j, Idle, read, 2, sent, task), [])) && read < |sent|
    ensures var (core', cont') := Read(core, sent[read], 0);
      Leads(earlier, Killing(j, core', KillConn(j, cont', read + 1, 2, sent, task), []))
  {
    hide Leads, Read;
    var s := Killing(j, core, KillConn(j, Idle, read, 2, sent, task), []);
    var (core', cont') := Read(core, sent[read], 0);
    var s' := DoRead(s, 0, 0);
    LeadsMore(earlier, s, Wire(ReadMessage(0, 0)), s');
    assert s'.conns[0] == KillConn(j, cont', read + 1, 2, sent, task);
    assert s' == Killing(j, core', KillConn(j, cont', read + 1, 2, sent, task), []);
  }

  lemma KillContinues(
      j: Job, earlier: Sys, core: Core, cont: Cont, read: nat, sent: seq<WorkerMessage>, task: WorkerTask)
    requires Leads(earlier, Killing(j, core, KillConn(j, cont, read, 2, sent, task), [])) && !cont.Idle? && !cont.Gone?
    ensures var (core', cont') := Advance(core, cont, 0);
      Leads(earlier, Killing(j, core', KillConn(j, cont', read, 2, sent, task), []))
  {
    hide Leads, Advance;
    var s := Killing(j, core, KillConn(j, cont, read, 2, sent, task), []);
    var (core', cont') := Advance(core, cont, 0);
    var s' := DoContinue(s, 0, 0);
    LeadsMore(earlier, s, Wire(Continue(0, 0)), s');
    assert s'.conns[0] == KillConn(j, cont', read, 2, sent, task);
    assert s' == Killing(j, core', KillConn(j, cont', read, 2, sent, task), []);
  }

  function KilledRow(j: Job): Row {
    QueuedRow(j).(status := Failed, exited := Some(0))
  }

  function KilledCore(j: Job): Core {
    var exit := FailedExit(j.job, j.t, j.n, 0);
    CoreWith(j, map[], map[j.t := KilledRow(j)], [ExitedEvent(exit), ErrorEvent(Report(j))])
  }

  /** The sections of the report leave the row failed and the task out of the index. */
  lemma ReportSections(j: Job)
    ensures var exit := FailedExit(j.job, j.t, j.n, 0);
      var core := Dispatched1(j).core;
      var (core1, cont1) := Read(core, Error(Report(j)), 0);
      var (core2, cont2) := Advance(core1, cont1, 0);
      var (core3, cont3) := Advance(core2, cont2, 0);
      && cont1 == RecordExit(exit, CoordinatorCore.Report(Report(j))) && cont2.SendExit? && cont3.SendLast?
      && Advance(core3, cont3, 0) == (KilledCore(j), Idle)
  {
    var core, exit := Dispatched1(j).core, FailedExit(j.job, j.t, j.n, 0);
    assert map[j.t := j.job] - {j.t} == map[];
    assert Unindex(core.nodes, j.n, j.t) == KilledCore(j).nodes;
    assert RowExited(core.rows, exit) == KilledCore(j).rows;
    assert [] + [ExitedEvent(exit)] + [ErrorEvent(Report(j))] == KilledCore(j).events;
  }

  lemma ToKilled(j: Job)
    requires j.argv != []
    ensures var s := Killing(j, KilledCore(j), KillConn(j, Idle, 1, 2, [Error(Report(j))], Received(Spec(j))), []);
      Leads(s, s)
  {
    var first, task, sent := AtWorker(j, [], Received(Spec(j))), Received(Spec(j)), [Error(Report(j))];
    ToKillPosted(j);
    hide Leads, Read, Advance, Killing, KillConn, Dispatched1, KilledCore, AtWorker;
    KillIsAnswered(j, first);
    KillRead(j, first, Dispatched1(j).core, 0, sent, task);
    ReportSections(j);
    var (core1, cont1) := Read(Dispatched1(j).core, Error(Report(j)), 0);
    KillContinues(j, first, core1, cont1, 1, sent, task);
    var (core2, cont2) := Advance(core1, cont1, 0);
    KillContinues(j, first, core2, cont2, 1, sent, task);
    var (core3, cont3) := Advance(core2, cont2, 0);
    KillContinues(j, first, core3, cont3, 1, sent, task);
    LeadsAnew(first, Killing(j, KilledCore(j), KillConn(j, Idle, 1, 2, sent, task), []));
  }

  lemma KilledSpawns(j: Job, s: Sys)
    requires j.argv != [] && Authorize(j.policy, j.argv).Allow?
    requires s == Killing(j, KilledCore(j), KillConn(j, Idle, 1, 2, [Error(Report(j))], Received(Spec(j))), [])
      && Leads(s, s)
    ensures var start := Started(StartOf(j));
      var conn := KillConn(j, Idle, 1, 2, [Error(Report(j)), start], Live(Spec(j), [start], 1, true));
      Leads(s, Killing(j, KilledCore(j), conn, []))
  {
    hide Leads, Authorize;
    var start := Started(StartOf(j));
    var s1 := DoSpawn(s, 0, j.t, None, 0);
    LeadsMore(s, s, Work(0, Spawn(j.t, None, 0)), s1);
    assert s1.conns[0] == KillConn(j, Idle, 1, 2, [Error(Report(j))], Live(Spec(j), [start], 0, true));
    var s2 := DoForward(s1, 0, j.t);
    LeadsMore(s, s1, Work(0, Forward(j.t)), s2);
    var conn := KillConn(j, Idle, 1, 2, [Error(Report(j)), start], Live(Spec(j), [start], 1, true));
    assert s2.conns[0] == conn;
    assert s2 == Killing(j, KilledCore(j), conn, []);
  }

  /** A whole run that leaves a finished status: the kill fails before the task starts, the row is failed, the task
      starts, and the row is running. Nothing in it but that kill departs from an honest run. */
  lemma EarlyKillRevivesRow(j: Job)
    requires j.argv != [] && Authorize(j.policy, j.argv).Allow?
    ensures exists failed, running :: Leads(failed, running)
              && j.t in failed.core.rows && failed.core.rows[j.t].status.Failed?
              && j.t in running.core.rows && running.core.rows[j.t].status.Running?
  {
    var failed := Killing(j, KilledCore(j), KillConn(j, Idle, 1, 2, [Error(Report(j))], Received(Spec(j))), []);
    ToKilled(j);
    KilledSpawns(j, failed);
    var start := Started(StartOf(j));
    hide Leads, Authorize;
    KillRead(j, failed, KilledCore(j), 1, [Error(Report(j)), start], Live(Spec(j), [start], 1, true));
  }
}
