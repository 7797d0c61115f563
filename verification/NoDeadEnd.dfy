/** No state is a dead end for a waiting client: whatever has happened so far, its run can still be brought to
    JobFinished, as long as the open connections of its tasks are still read. */
module NoDeadEnd {
  import opened Protocol
  import opened JobStore
  import opened CoordinatorCore
  import opened WaitLoop
  import opened Cluster
  import opened WakeUp
  import opened Lifecycle
  import opened CoordinatorSteps
  import opened ClientSteps
  import opened DispatchSteps
  import opened Guarantees

  // ---- Continuations ----

  ghost predicate Path(states: seq<Sys>, steps: seq<Step>) {
    && |states| == |steps| + 1
    && forall k :: 0 <= k < |steps| ==> Next(states[k], steps[k], states[k + 1]) && Honest(states[k], steps[k])
  }

  /** Honest steps lead from `s` to `s'`. */
  ghost predicate CanReach(s: Sys, s': Sys) {
    exists states, steps :: Path(states, steps) && states[0] == s && states[|steps|] == s'
  }

  lemma ReachesItself(s: Sys)
    ensures CanReach(s, s)
  {
    var none: seq<Step> := [];
    assert Path([s], none) && [s][0] == s && [s][|none|] == s;
  }

  lemma PathMore(states: seq<Sys>, steps: seq<Step>, step: Step, s': Sys)
    requires Path(states, steps) && Next(states[|steps|], step, s') && Honest(states[|steps|], step)
    ensures Path(states + [s'], steps + [step])
  {
    hide Next, Honest;
    var states', steps' := states + [s'], steps + [step];
    forall k | 0 <= k < |steps'| ensures Next(states'[k], steps'[k], states'[k + 1]) && Honest(states'[k], steps'[k]) {
      if k < |steps| {
        assert Next(states[k], steps[k], states[k + 1]) && Honest(states[k], steps[k]);
      }
    }
  }

  lemma ReachesMore(s: Sys, s1: Sys, step: Step, s2: Sys)
    requires CanReach(s, s1) && Next(s1, step, s2) && Honest(s1, step)
    ensures CanReach(s, s2)
  {
    hide Next, Honest;
    var states, steps :| Path(states, steps) && states[0] == s && states[|steps|] == s1;
    PathMore(states, steps, step, s2);
    assert (states + [s2])[0] == s && (states + [s2])[|steps + [step]|] == s2;
  }

  /** A client waits only after its tasks were sent out; a connection left through a read error has no handler under
      way. */
  predicate Settled(s: Sys) {
    && (forall r :: r in s.runs && s.runs[r].phase.Following? ==> s.runs[r].next == |s.runs[r].dispatch|)
    && (forall c :: c in s.conns && s.conns[c].open && !s.conns[c].reading ==> s.conns[c].cont.Idle?)
  }

  lemma WireSettles(s: Sys, step: WireStep, s': Sys)
    requires NextWire(s, step, s') && Settled(s)
    ensures Settled(s')
  {
    hide Advance, Read;
  }

  lemma WorkSettles(s: Sys, c: nat, step: WorkStep, s': Sys)
    requires NextWork(s, c, step, s') && Settled(s)
    ensures Settled(s')
  {
  }

  lemma ClientSettles(s: Sys, step: ClientStep, s': Sys)
    requires NextClient(s, step, s') && Settled(s)
    ensures Settled(s')
  {
  }

  lemma StepSettles(s: Sys, step: Step, s': Sys)
    requires Next(s, step, s') && Settled(s)
    ensures Settled(s')
  {
    hide NextWire, NextWork, NextClient;
    match step
    case Wire(wire) => WireSettles(s, wire, s');
    case Work(c, work) => WorkSettles(s, c, work, s');
    case Client(call) => ClientSettles(s, call, s');
    case Dispatch(r, request, job, selected, upto, ids, clock) => hide PlaceAll, Places;
  }

  /** What holds in every reachable state and is kept by every honest step. */
  ghost predicate Good(s: Sys) {
    Life(s) && CursorsOk(s) && WakeInv(s) && Settled(s)
  }

  lemma HonestIsWakeSafe(s: Sys, step: Step)
    requires Honest(s, step)
    ensures WakeSafe(s, step)
  {
  }

  lemma StepKeepsGood(s: Sys, step: Step, s': Sys)
    requires Good(s) && Next(s, step, s') && Honest(s, step)
    ensures Good(s')
  {
    hide Life, Next, Honest, WakeInv, CursorsOk, Settled;
    StepKeepsLife(s, step, s');
    HonestIsWakeSafe(s, step);
    WakeStep(s, step, s');
    StepSettles(s, step, s');
  }

  lemma {:induction false} GoodHolds(states: seq<Sys>, steps: seq<Step>, i: nat)
    requires HonestRun(states, steps) && i <= |steps|
    ensures Good(states[i])
  {
    if i > 0 {
      GoodHolds(states, steps, i - 1);
      assert Next(states[i - 1], steps[i - 1], states[i - 1 + 1]);
      hide Good;
      StepKeepsGood(states[i - 1], steps[i - 1], states[i]);
    }
  }

  lemma ReachableIsGood(s: Sys)
    requires Reachable(s)
    ensures Good(s)
  {
    var states, steps :| HonestRun(states, steps) && states[|steps|] == s;
    GoodHolds(states, steps, |steps|);
  }

  // ---- Coordinator and workers move, clients and connections stay ----

  predicate SameLinks(s: Sys, s': Sys) {
    && s'.runs == s.runs && s'.placed == s.placed && s'.conns.Keys == s.conns.Keys
    && (forall d :: d in s.conns ==> s'.conns[d].open == s.conns[d].open && s'.conns[d].reading == s.conns[d].reading)
    && s.core.events <= s'.core.events
  }

  /** Honest steps lead from `start` to `s`, from a good state to a good state, and no client took one. */
  ghost predicate Drives(start: Sys, s: Sys) {
    CanReach(start, s) && Good(s) && SameLinks(start, s)
  }

  lemma DrivesMore(start: Sys, s: Sys, step: Step, s': Sys)
    requires Drives(start, s) && Next(s, step, s') && Honest(s, step) && SameLinks(s, s')
    ensures Drives(start, s')
  {
    hide Good, CanReach, Next, Honest;
    ReachesMore(start, s, step, s');
    StepKeepsGood(s, step, s');
  }

  lemma AboutDriven(start: Sys, s: Sys, c: nat)
    requires Drives(start, s) && c in s.conns
    ensures ConnOk(s.placed, s.core, c, s.conns[c])
  {
    hide Life, ConnOk, CanReach, WakeInv, CursorsOk;
    AboutConn(s, c);
  }

  // ---- The coordinator's end of one connection ----

  predicate SameMail(conn: Conn, conn': Conn) {
    conn'.sent == conn.sent && conn'.inbox == conn.inbox && conn'.got == conn.got && conn'.tasks == conn.tasks
  }

  lemma AdvanceRanks(core: Core, cont: Cont, now: Protocol.Time)
    requires !cont.Idle? && !cont.Gone?
    ensures Rank(Advance(core, cont, now).1) < Rank(cont)
    ensures core.events <= Advance(core, cont, now).0.events
  {
  }

  /** A handler under way can be run to its end. */
  lemma {:induction false} DrainHandler(start: Sys, s: Sys, c: nat) returns (s': Sys)
    requires Drives(start, s) && c in s.conns
    ensures Drives(start, s') && SameLinks(s, s') && SameMail(s.conns[c], s'.conns[c])
    ensures s'.conns[c].read == s.conns[c].read && (s'.conns[c].cont.Idle? || s'.conns[c].cont.Gone?)
    decreases Rank(s.conns[c].cont)
  {
    hide Drives, Advance, Rank;
    s' := s;
    if CanContinue(s, c) {
      AdvanceRanks(s.core, s.conns[c].cont, 0);
      var s1 := DoContinue(s, c, 0);
      DrivesMore(start, s, Wire(Continue(c, 0)), s1);
      s' := DrainHandler(start, s1, c);
    }
  }

  lemma ReadGrows(core: Core, message: WorkerMessage, now: Protocol.Time)
    ensures Read(core, message, now).0.events == core.events
  {
  }

  /** Everything a connection has sent can be read and handled, while it is open and read. */
  lemma {:induction false} DrainMessages(start: Sys, s: Sys, c: nat) returns (s': Sys)
    requires Drives(start, s) && c in s.conns && s.conns[c].open && s.conns[c].reading
    ensures Drives(start, s') && SameLinks(s, s') && SameMail(s.conns[c], s'.conns[c])
    ensures s'.conns[c].read == |s'.conns[c].sent| && s'.conns[c].cont.Idle?
    decreases |s.conns[c].sent| - s.conns[c].read
  {
    hide Drives, Read, ContOk, SentOk, InboxOk, TasksOk;
    s' := DrainHandler(start, s, c);
    AboutDriven(start, s', c);
    OpenIsNotGone(s'.placed, s'.core.rows, c, s'.conns[c]);
    if s'.conns[c].read < |s'.conns[c].sent| {
      ReadGrows(s'.core, s'.conns[c].sent[s'.conns[c].read], 0);
      var s1 := DoRead(s', c, 0);
      DrivesMore(start, s', Wire(ReadMessage(c, 0)), s1);
      s' := DrainMessages(start, s1, c);
    }
  }

  lemma OpenIsNotGone(placed: Placed, rows: Rows, c: nat, conn: Conn)
    requires ContOk(placed, rows, c, conn) && (conn.cont.Idle? || conn.cont.Gone?)
    ensures conn.open <==> conn.cont.Idle?
  {
  }

  // ---- The worker's end ----

  /** The coordinator's side as it was, and nothing new in the mail. */
  predicate SameFront(conn: Conn, conn': Conn) {
    conn'.inbox == conn.inbox && conn'.cont == conn.cont
  }

  lemma {:induction false} DrainMail(start: Sys, s: Sys, c: nat) returns (s': Sys)
    requires Drives(start, s) && c in s.conns
    ensures Drives(start, s') && SameLinks(s, s')
    ensures s'.conns[c].inbox == s.conns[c].inbox && s'.conns[c].got == |s'.conns[c].inbox|
    decreases |s.conns[c].inbox| - s.conns[c].got
  {
    hide Drives, ContOk, SentOk, InboxOk, TasksOk;
    s' := s;
    AboutDriven(start, s, c);
    if HasMail(s, c) {
      var step := if Mail(s, c).StartTask? then Receive else KillSucceeds;
      var s1 := if Mail(s, c).StartTask? then DoReceive(s, c) else DoKillSucceeds(s, c);
      DrivesMore(start, s, Work(c, step), s1);
      s' := DrainMail(start, s1, c);
    }
  }

  /** The worker is done with the task. */
  predicate Done(task: WorkerTask) {
    task.Rejected? || (task.Live? && !task.alive && task.forwarded >= |task.events|)
  }

  lemma {:induction false} ForwardAll(start: Sys, s: Sys, c: nat, t: TaskId) returns (s': Sys)
    requires Drives(start, s) && IsLive(s, c, t) && !s.conns[c].tasks[t].alive
    ensures Drives(start, s') && SameLinks(s, s') && t in s'.conns[c].tasks && Done(s'.conns[c].tasks[t])
    decreases |s.conns[c].tasks[t].events| - s.conns[c].tasks[t].forwarded
  {
    hide Drives;
    s' := s;
    if CanForward(s, c, t) {
      var s1 := DoForward(s, c, t);
      DrivesMore(start, s, Work(c, Forward(t)), s1);
      s' := ForwardAll(start, s1, c, t);
    }
  }

  lemma TurnDown(start: Sys, s: Sys, c: nat, t: TaskId) returns (s': Sys)
    requires Drives(start, s) && IsReceived(s, c, t)
    ensures Drives(start, s') && SameLinks(s, s') && t in s'.conns[c].tasks && Done(s'.conns[c].tasks[t])
  {
    hide Drives;
    s' := DoReject(s, c, t, "");
    DrivesMore(start, s, Work(c, Reject(t, "")), s');
  }

  lemma EndProcess(start: Sys, s: Sys, c: nat, t: TaskId) returns (s': Sys)
    requires Drives(start, s) && CanExit(s, c, t)
    ensures Drives(start, s') && SameLinks(s, s') && IsLive(s', c, t) && !s'.conns[c].tasks[t].alive
  {
    hide Drives;
    s' := DoExit(s, c, t, Some(0), true, 0);
    DrivesMore(start, s, Work(c, Exit(t, Some(0), true, 0)), s');
  }

  /** A worker that knows a task can be done with it: it may still turn it down, or see its process exit. */
  lemma FinishTask(start: Sys, s: Sys, c: nat, t: TaskId) returns (s': Sys)
    requires Drives(start, s) && c in s.conns && t in s.conns[c].tasks
    ensures Drives(start, s') && SameLinks(s, s') && t in s'.conns[c].tasks && Done(s'.conns[c].tasks[t])
  {
    hide Drives;
    s' := s;
    if s.conns[c].tasks[t].Received? {
      s' := TurnDown(start, s, c, t);
    } else if s.conns[c].tasks[t].Live? {
      if s.conns[c].tasks[t].alive {
        s' := EndProcess(start, s, c, t);
      }
      s' := ForwardAll(start, s', c, t);
    }
  }

  // ---- One task ----

  /** A task whose handler, channel and worker are done has its exit in the log. */
  lemma DoneIsOut(core: Core, runs: map<nat, Run>, conn: Conn, p: Cluster.Place, t: TaskId)
    requires TaskIn(core, runs, conn, p, t)
    requires conn.cont.Idle? || conn.cont.Gone?
    requires conn.open ==> t in conn.tasks && Done(conn.tasks[t]) && conn.read == |conn.sent|
    ensures Exits(core.events, t) != []
  {
    hide Exits, Marks, IndexOk, PlaceOk, Delivered, LogsAfterStart;
    if conn.open {
      assert conn.sent[..conn.read] == conn.sent;
      assert Complete(Marks(conn.sent, t)) by { DoneIsComplete(conn, t); }
    }
  }

  lemma DoneIsComplete(conn: Conn, t: TaskId)
    requires Shape(conn, t) && t in conn.tasks && Done(conn.tasks[t])
    ensures Complete(Marks(conn.sent, t))
  {
    hide Marks, LogsAfterStart;
    if conn.tasks[t].Live? {
      var task := conn.tasks[t];
      assert task.events[..|task.events|] == task.events;
    }
  }

  lemma PostedIsKnown(conn: Conn, t: TaskId)
    requires Delivered(conn, t, true) && conn.got == |conn.inbox|
    ensures t in conn.tasks
  {
    assert conn.inbox[..conn.got] == conn.inbox;
  }

  /** `t` was assigned to a waiting run, and its connection, if open, is still read. */
  predicate Drivable(s: Sys, r: nat, t: TaskId) {
    && r in s.runs && s.runs[r].phase.Following? && t in Assigned(s.runs[r].assignments)
    && t in s.placed && s.placed[t].conn in s.conns
    && (s.conns[s.placed[t].conn].open ==> s.conns[s.placed[t].conn].reading)
  }

  lemma AssignedIsPosted(s: Sys, r: nat, t: TaskId)
    requires Good(s) && r in s.runs && s.runs[r].phase.Following? && t in Assigned(s.runs[r].assignments)
    ensures t in s.placed && Posted(s.runs, s.placed[t])
  {
    hide Life, WakeInv, CursorsOk, JobOwned, Collected;
    AboutRun(s, r);
    var run := s.runs[r];
    var i :| 0 <= i < |run.assignments| && run.assignments[i].task == t;
    assert DispatchOk(s.placed, r, run.job, run.assignments[i], run.dispatch[i], i);
  }

  lemma AboutGoodTask(s: Sys, t: TaskId)
    requires Good(s) && t in s.placed
    ensures TaskOk(s, t)
  {
    hide Life, WakeInv, CursorsOk, Settled, TaskOk;
    AboutTask(s, t);
  }

  lemma KnownTask(s: Sys, r: nat, t: TaskId)
    requires Good(s) && Drivable(s, r, t) && s.conns[s.placed[t].conn].got == |s.conns[s.placed[t].conn].inbox|
    ensures t in s.conns[s.placed[t].conn].tasks
  {
    hide Good, Shape, StatusOk, IndexOk, EventsOk, PlaceOk, Delivered, Posted, Assigned;
    AssignedIsPosted(s, r, t);
    AboutGoodTask(s, t);
    PostedIsKnown(s.conns[s.placed[t].conn], t);
  }

  lemma ExitsGrow(events: seq<CoordinatorEvent>, events': seq<CoordinatorEvent>, t: TaskId)
    requires events <= events' && Exits(events, t) != []
    ensures Exits(events', t) != []
    decreases |events'|
  {
    if |events| < |events'| {
      ExitsGrow(events, events'[..|events'| - 1], t);
    } else {
      assert events == events';
    }
  }

  /** Coordinator and worker can bring a task to its exit. */
  lemma DriveTask(start: Sys, s: Sys, r: nat, t: TaskId) returns (s': Sys)
    requires Drives(start, s) && Drivable(s, r, t)
    ensures Drives(start, s') && SameLinks(s, s') && Exits(s'.core.events, t) != []
  {
    hide Good, CanReach, TaskIn, Assigned, Done, Exits;
    var c := s.placed[t].conn;
    s' := s;
    if s.conns[c].open {
      s' := DrainMail(start, s', c);
      KnownTask(s', r, t);
      s' := FinishTask(start, s', c, t);
      s' := DrainMessages(start, s', c);
    } else {
      s' := DrainHandler(start, s', c);
    }
    AboutGoodTask(s', t);
    DoneIsOut(s'.core, s'.runs, s'.conns[c], s'.placed[t], t);
  }

  lemma {:induction false} DriveAll(start: Sys, s: Sys, r: nat, tasks: set<TaskId>) returns (s': Sys)
    requires Drives(start, s) && forall t :: t in tasks ==> Drivable(s, r, t) || Exits(s.core.events, t) != []
    ensures Drives(start, s') && SameLinks(s, s') && forall t :: t in tasks ==> Exits(s'.core.events, t) != []
    decreases tasks
  {
    hide Drives, Exits, Assigned;
    s' := s;
    if tasks != {} {
      var t :| t in tasks;
      var s1 := DriveAll(start, s, r, tasks - {t});
      s' := s1;
      if Drivable(s, r, t) {
        s' := DriveTask(start, s1, r, t);
      } else {
        ExitsGrow(s.core.events, s'.core.events, t);
      }
      forall u | u in tasks && u != t ensures Exits(s'.core.events, u) != [] {
        ExitsGrow(s1.core.events, s'.core.events, u);
      }
    }
  }

  // ---- The client ----

  /** A task whose exit is in the log is in no index, and no handler holds it. */
  lemma OutIsLeft(s: Sys, t: TaskId)
    requires Good(s) && t in s.placed && Exits(s.core.events, t) != []
    ensures !Indexed(s.core.nodes, t) && !InFlight(s.conns, t)
  {
    hide Good, Exits;
    AboutGoodTask(s, t);
    OutIsUnindexed(s, t);
    forall d | d in s.conns ensures !Holds(s.conns[d].cont, t) {
      hide TaskIn, Indexed;
      AboutGoodConn(s, d);
      if Holds(s.conns[d].cont, t) {
        HeldIsOwn(s.placed, s.core.rows, d, s.conns[d], t);
        OutIsUnheld(s, t);
        assert false;
      }
    }
  }

  lemma AboutGoodConn(s: Sys, c: nat)
    requires Good(s) && c in s.conns
    ensures ContOk(s.placed, s.core.rows, c, s.conns[c])
  {
    hide Life, WakeInv, CursorsOk, Settled, ContOk, SentOk, InboxOk, TasksOk;
    AboutConn(s, c);
  }

  lemma HeldIsOwn(placed: Placed, rows: Rows, c: nat, conn: Conn, t: TaskId)
    requires ContOk(placed, rows, c, conn) && Holds(conn.cont, t)
    ensures t in placed && placed[t].conn == c
  {
  }

  lemma OutIsUnheld(s: Sys, t: TaskId)
    requires TaskOk(s, t) && Exits(s.core.events, t) != []
    ensures !Holds(s.conns[s.placed[t].conn].cont, t)
  {
    hide Exits, Shape, Delivered, PlaceOk, IndexOk, Marks;
  }

  lemma OutIsUnindexed(s: Sys, t: TaskId)
    requires TaskOk(s, t) && Exits(s.core.events, t) != []
    ensures !Indexed(s.core.nodes, t)
  {
    hide Exits, Shape, Delivered, PlaceOk, Marks;
  }

  lemma {:induction false} WaitFromFront(w: Waiting, events: seq<CoordinatorEvent>)
    requires events != []
    ensures WaitAll(w, events) == WaitAll(WaitStep(w, events[0]), events[1..])
  {
    var last := |events| - 1;
    if last > 0 {
      WaitFromFront(w, events[..last]);
      assert events[..last][1..] == events[1..][..last - 1];
    } else {
      assert events[..last] == [] && events[1..] == [];
    }
  }

  /** The client reads what is in its subscription until nothing is pending, and is told. */
  lemma {:induction false} ReadToTheEnd(start: Sys, s: Sys, r: nat) returns (s': Sys)
    requires CanReach(start, s) && r in s.runs && s.runs[r].phase.Following? && s.runs[r].cursor <= |s.core.events|
    requires WaitAll(s.runs[r].waiting, s.core.events[s.runs[r].cursor..]).pending == {}
    ensures CanReach(start, s') && r in s'.runs && s'.runs[r].phase.Finished?
    ensures s'.runs[r].job == s.runs[r].job && s'.runs[r].assignments == s.runs[r].assignments
    decreases |s.core.events| - s.runs[r].cursor
  {
    hide CanReach, WaitStep;
    var run := s.runs[r];
    var rest := s.core.events[run.cursor..];
    if run.waiting.pending == {} {
      s' := DoFinish(s, r);
      ReachesMore(start, s, Client(FinishRun(r)), s');
    } else {
      assert rest != [];
      WaitFromFront(run.waiting, rest);
      var s1 := DoReadEvent(s, r);
      assert rest[1..] == s.core.events[run.cursor + 1..];
      ReachesMore(start, s, Client(ReadEvent(r)), s1);
      s' := ReadToTheEnd(start, s1, r);
    }
  }

  // ---- Exactly when a wait can end ----

  /** Every task still pending has its exit in the log, or its connection is closed or still read. */
  ghost predicate CanEnd(s: Sys, r: nat)
    requires r in s.runs
  {
    forall t :: t in s.runs[r].waiting.pending ==> Exits(s.core.events, t) != [] || Drivable(s, r, t)
  }

  lemma PendingIsAssigned(s: Sys, r: nat)
    requires Good(s) && r in s.runs && s.runs[r].phase.Following?
    ensures s.runs[r].waiting.pending <= Assigned(s.runs[r].assignments)
  {
    hide Life, WakeInv, CursorsOk, Settled, JobOwned, DispatchesOk, Assigned;
    AboutRun(s, r);
  }

  lemma WaitCanEnd(s: Sys, r: nat)
    requires Good(s) && r in s.runs && s.runs[r].phase.Following? && CanEnd(s, r)
    ensures exists s' :: CanReach(s, s') && r in s'.runs && s'.runs[r].phase.Finished?
  {
    hide Good, CanReach, Exits, Assigned, TaskIn;
    ReachesItself(s);
    var s1 := DriveAll(s, s, r, s.runs[r].waiting.pending);
    PendingIsAssigned(s1, r);
    forall t | t in s1.runs[r].waiting.pending ensures !Indexed(s1.core.nodes, t) && !InFlight(s1.conns, t) {
      AssignedIsPosted(s1, r, t);
      OutIsLeft(s1, t);
    }
    GoodWakes(s1);
    DrainedWaiterFinishes(s1, r);
    var s2 := ReadToTheEnd(s, s1, r);
  }

  lemma GoodWakes(s: Sys)
    requires Good(s)
    ensures CursorsOk(s) && WakeInv(s)
  {
    hide Life, CursorsOk, WakeInv, Settled;
  }

  /** The connection of `t` is open and no longer read, and the exit of `t` was never broadcast. */
  predicate Stuck(s: Sys, t: TaskId) {
    && t in s.placed && s.placed[t].conn in s.conns && Exits(s.core.events, t) == []
    && var conn := s.conns[s.placed[t].conn]; conn.open && !conn.reading && conn.cont.Idle?
  }

  lemma ContinueStaysStuck(s: Sys, c: nat, now: Protocol.Time, t: TaskId)
    requires Stuck(s, t) && CanContinue(s, c) && ContOk(s.placed, s.core.rows, c, s.conns[c]) && t in s.core.rows
    ensures Stuck(DoContinue(s, c, now), t)
  {
    assert c != s.placed[t].conn;
    assert !Moves(s.conns[c].cont, t);
    AdvanceOthers(s.core, s.conns[c].cont, now, t);
    hide Advance, Exits, ContOk, SameIndex;
  }

  lemma WireStaysStuck(s: Sys, step: WireStep, s': Sys, t: TaskId)
    requires Stuck(s, t) && NextWire(s, step, s') && t in s.core.rows
    requires step.Continue? ==> step.conn in s.conns && ContOk(s.placed, s.core.rows, step.conn, s.conns[step.conn])
    ensures Stuck(s', t)
  {
    hide Exits, Read, Advance, ContOk;
    match step
    case ReadMessage(c, now) => ReadGrows(s.core, s.conns[c].sent[s.conns[c].read], now);
    case Continue(c, now) => ContinueStaysStuck(s, c, now, t);
    case _ =>
  }

  lemma WorkStaysStuck(s: Sys, c: nat, step: WorkStep, s': Sys, t: TaskId)
    requires Stuck(s, t) && NextWork(s, c, step, s')
    ensures Stuck(s', t)
  {
    hide Exits;
  }

  lemma ClientStaysStuck(s: Sys, step: ClientStep, s': Sys, t: TaskId)
    requires Stuck(s, t) && NextClient(s, step, s')
    ensures Stuck(s', t)
  {
    hide Exits;
  }

  lemma StepStaysStuck(s: Sys, step: Step, s': Sys, t: TaskId)
    requires Good(s) && Stuck(s, t) && Next(s, step, s')
    ensures Stuck(s', t)
  {
    hide Good, NextWork, NextClient, Exits, TaskIn;
    match step
    case Wire(wire) =>
      RowOfGood(s, t);
      if wire.Continue? { AboutGoodConn(s, wire.conn); }
      hide NextWire, Stuck, ContOk;
      WireStaysStuck(s, wire, s', t);
    case Work(c, work) => WorkStaysStuck(s, c, work, s', t);
    case Client(call) => ClientStaysStuck(s, call, s', t);
    case Dispatch(r, request, job, selected, upto, ids, clock) =>
      hide Placing, FreshIds, Places;
      var p := PlaceAll(s.core, request, job, selected[..upto], ids, clock);
      PlacementOf(s, request, job, selected[..upto], ids, clock);
      PlacedGrow(s, r, job, p);
      PlacedEvents(s, job, p);
  }

  lemma RowOfGood(s: Sys, t: TaskId)
    requires Good(s) && t in s.placed
    ensures t in s.core.rows && s.placed[t].conn in s.conns
  {
    hide Good;
    AboutGoodTask(s, t);
  }

  lemma PlacedEvents(s: Sys, job: JobId, p: Placement)
    requires Placing(s, job, p)
    ensures p.core.events == s.core.events
  {
  }

  predicate SameRun(s: Sys, s': Sys, r: nat) {
    && r in s.runs && r in s'.runs && !s'.runs[r].phase.Subscribed?
    && s'.runs[r].assignments == s.runs[r].assignments
  }

  lemma WorkKeepsRun(s: Sys, c: nat, step: WorkStep, s': Sys)
    requires NextWork(s, c, step, s')
    ensures s'.runs == s.runs
  {
  }

  lemma ClientKeepsRun(s: Sys, step: ClientStep, s': Sys, r: nat)
    requires NextClient(s, step, s') && r in s.runs && !s.runs[r].phase.Subscribed?
    ensures SameRun(s, s', r)
  {
  }

  lemma StepKeepsRun(s: Sys, step: Step, s': Sys, r: nat)
    requires Next(s, step, s') && r in s.runs && !s.runs[r].phase.Subscribed?
    ensures SameRun(s, s', r)
  {
    hide NextWire, NextWork, NextClient;
    match step
    case Wire(wire) => WireEvents(s, wire, s');
    case Work(c, work) => WorkKeepsRun(s, c, work, s');
    case Client(call) => ClientKeepsRun(s, call, s', r);
    case Dispatch(q, request, job, selected, upto, ids, clock) => hide PlaceAll, Places;
  }

  lemma PathLength(states: seq<Sys>, steps: seq<Step>)
    requires Path(states, steps)
    ensures |states| == |steps| + 1
  {
    hide Next, Honest;
  }

  lemma PathStep(states: seq<Sys>, steps: seq<Step>, k: nat)
    requires Path(states, steps) && k < |steps|
    ensures |states| == |steps| + 1 && Next(states[k], steps[k], states[k + 1]) && Honest(states[k], steps[k])
  {
    hide Next, Honest;
  }

  lemma {:induction false} StuckForGood(states: seq<Sys>, steps: seq<Step>, k: nat, r: nat, t: TaskId)
    requires Path(states, steps) && k <= |steps| && Good(states[0]) && Stuck(states[0], t)
    requires r in states[0].runs && !states[0].runs[r].phase.Subscribed?
    ensures Good(states[k]) && Stuck(states[k], t) && SameRun(states[0], states[k], r)
  {
    hide Good, Stuck, Next, Honest, Path;
    PathLength(states, steps);
    if k > 0 {
      StuckForGood(states, steps, k - 1, r, t);
      PathStep(states, steps, k - 1);
      StepKeepsGood(states[k - 1], steps[k - 1], states[k]);
      StepStaysStuck(states[k - 1], steps[k - 1], states[k], t);
      StepKeepsRun(states[k - 1], steps[k - 1], states[k], r);
    }
  }

  /** JobFinished is sent only when every assigned task has its exit in the log. */
  lemma FinishedIsOut(s: Sys, r: nat, t: TaskId)
    requires Good(s) && r in s.runs && s.runs[r].phase.Finished? && t in Assigned(s.runs[r].assignments)
    ensures Exits(s.core.events, t) != []
  {
    hide Life, WakeInv, CursorsOk, Settled, JobOwned, DispatchesOk, Assigned, Exits;
    AboutRun(s, r);
    var w := s.runs[r].waiting;
    assert t !in w.pending;
    var i :| 0 <= i < |w.exits| && w.exits[i].task == t;
    ExitsFind(s.core.events, w.exits[i]);
  }

  lemma EndedCould(s: Sys, r: nat, s': Sys)
    requires Good(s) && r in s.runs && s.runs[r].phase.Following?
    requires CanReach(s, s') && r in s'.runs && s'.runs[r].phase.Finished?
    ensures CanEnd(s, r)
  {
    hide Good, Exits, Assigned, Next, Honest;
    PendingIsAssigned(s, r);
    forall t | t in s.runs[r].waiting.pending ensures Exits(s.core.events, t) != [] || Drivable(s, r, t) {
      AssignedIsPosted(s, r, t);
      RowOfGood(s, t);
      if Exits(s.core.events, t) == [] && !Drivable(s, r, t) {
        SilentIsIdle(s, s.placed[t].conn);
        var states, steps :| Path(states, steps) && states[0] == s && states[|steps|] == s';
        StuckForGood(states, steps, |steps|, r, t);
        FinishedIsOut(s', r, t);
        assert false;
      }
    }
  }

  lemma SilentIsIdle(s: Sys, c: nat)
    requires Good(s) && c in s.conns
    ensures s.conns[c].open && !s.conns[c].reading ==> s.conns[c].cont.Idle?
  {
    hide Life, WakeInv, CursorsOk;
  }

  /** From any state that honest steps reach, a waiting run can still be brought to JobFinished by honest steps exactly
      when each task it waits for has its exit in the log, or a connection that is closed or still read. */
  lemma WaitCanEndIff(s: Sys, r: nat)
    requires Reachable(s) && r in s.runs && s.runs[r].phase.Following?
    ensures (exists s' :: CanReach(s, s') && r in s'.runs && s'.runs[r].phase.Finished?) <==> CanEnd(s, r)
  {
    hide Good, CanReach, CanEnd, Reachable;
    ReachableIsGood(s);
    if CanEnd(s, r) {
      WaitCanEnd(s, r);
    }
    if s' :| CanReach(s, s') && r in s'.runs && s'.runs[r].phase.Finished? {
      EndedCould(s, r, s');
    }
  }
}
