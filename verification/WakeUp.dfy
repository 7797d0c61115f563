/** No lost wake-up: whatever workers send, a task that a client waits for is still indexed under some connected node,
    or its exit is unread in the client's subscription, or a handler under way is about to broadcast it. */
module WakeUp {
  import opened Protocol
  import opened CoordinatorCore
  import opened WaitLoop
  import opened Cluster
  import opened Policy

  predicate Indexed(nodes: map<NodeId, Handle>, t: TaskId) {
    exists n :: n in nodes && t in nodes[n].running
  }

  predicate Unread(events: seq<CoordinatorEvent>, from: nat, t: TaskId) {
    exists i :: from <= i < |events| && events[i].ExitedEvent? && events[i].exited.task == t
  }

  predicate Lists(rest: seq<(TaskId, JobId)>, t: TaskId) {
    exists i :: 0 <= i < |rest| && rest[i].0 == t
  }

  lemma ListsTail(rest: seq<(TaskId, JobId)>, t: TaskId)
    requires rest != []
    ensures Lists(rest, t) <==> rest[0].0 == t || Lists(rest[1..], t)
  {
    if i :| 0 <= i < |rest| && rest[i].0 == t {
      assert i > 0 ==> rest[1..][i - 1].0 == t;
    }
  }

  predicate QueuedBehind(then_: Then, t: TaskId) {
    then_.NextLost? && Lists(then_.rest, t)
  }

  /** The handler has yet to broadcast an exit of `t`. */
  predicate Holds(cont: Cont, t: TaskId) {
    match cont
    case UnindexExited(e) => e.task == t
    case RecordExit(e, then_) => e.task == t || QueuedBehind(then_, t)
    case SendExit(e, then_) => e.task == t || QueuedBehind(then_, t)
    case LogLost(_, rest) => Lists(rest, t)
    case SendLostLog(_, rest, line) => line.task == t || Lists(rest, t)
    case _ => false
  }

  predicate InFlight(conns: map<nat, Conn>, t: TaskId) {
    exists c :: c in conns && Holds(conns[c].cont, t)
  }

  predicate Covered(s: Sys, from: nat, t: TaskId) {
    Indexed(s.core.nodes, t) || Unread(s.core.events, from, t) || InFlight(s.conns, t)
  }

  function Awaits(run: Run): set<TaskId> {
    if run.phase.Dispatching? then Assigned(run.assignments)
    else if run.phase.Following? then run.waiting.pending
    else {}
  }

  ghost predicate WakeInv(s: Sys) {
    forall r, t :: r in s.runs && t in Awaits(s.runs[r]) ==> Covered(s, s.runs[r].cursor, t)
  }

  /** Replacing the handle of `n` forgets no task: `n` is not connected, or each of its tasks is also indexed
      elsewhere. */
  ghost predicate DropsNothing(nodes: map<NodeId, Handle>, n: NodeId) {
    n in nodes ==> forall t :: t in nodes[n].running ==> Indexed(nodes - {n}, t)
  }

  ghost predicate WakeSafe(s: Sys, step: Step) {
    step.Wire? && step.wire.Register? ==> DropsNothing(s.core.nodes, step.wire.node)
  }

  // ---- One section at a time ----

  lemma IndexKeeps(nodes: map<NodeId, Handle>, n: NodeId, task: TaskId, job: JobId, t: TaskId)
    requires Indexed(nodes, t)
    ensures Indexed(Index(nodes, n, task, job), t)
  {
    var m :| m in nodes && t in nodes[m].running;
    assert t in Index(nodes, n, task, job)[m].running;
  }

  lemma UnindexKeeps(nodes: map<NodeId, Handle>, n: NodeId, task: TaskId, t: TaskId)
    requires Indexed(nodes, t) && t != task
    ensures Indexed(Unindex(nodes, n, task), t)
  {
    var m :| m in nodes && t in nodes[m].running;
    assert t in Unindex(nodes, n, task)[m].running;
  }

  lemma SameOrMoreConns(s: Sys, s': Sys, c: nat, from: nat, t: TaskId)
    requires c in s.conns && s'.conns.Keys == s.conns.Keys
    requires forall d :: d in s.conns && d != c ==> s'.conns[d] == s.conns[d]
    requires Holds(s.conns[c].cont, t) ==> Covered(s', from, t)
    requires Indexed(s.core.nodes, t) ==> Covered(s', from, t)
    requires s.core.events <= s'.core.events
    requires Covered(s, from, t)
    ensures Covered(s', from, t)
  {
    if Unread(s.core.events, from, t) {
      var i :| from <= i < |s.core.events| && s.core.events[i].ExitedEvent? && s.core.events[i].exited.task == t;
      assert s'.core.events[i] == s.core.events[i];
    } else if InFlight(s.conns, t) {
      var d :| d in s.conns && Holds(s.conns[d].cont, t);
      if d != c { assert Holds(s'.conns[d].cont, t); }
    }
  }

  lemma ReadKeeps(s: Sys, c: nat, now: Protocol.Time, from: nat, t: TaskId)
    requires CanRead(s, c) && Covered(s, from, t)
    ensures Covered(DoRead(s, c, now), from, t)
  {
    var s' := DoRead(s, c, now);
    var message := s.conns[c].sent[s.conns[c].read];
    if Indexed(s.core.nodes, t) && !Indexed(s'.core.nodes, t) {
      assert message.Error?;
      if message.error.task.value != t {
        UnindexKeeps(s.core.nodes, message.error.node.value, message.error.task.value, t);
      }
      assert Holds(s'.conns[c].cont, t);
    }
    SameOrMoreConns(s, s', c, from, t);
  }

  lemma ContinueKeeps(s: Sys, c: nat, now: Protocol.Time, from: nat, t: TaskId)
    requires CanContinue(s, c) && Covered(s, from, t) && from <= |s.core.events|
    ensures Covered(DoContinue(s, c, now), from, t)
  {
    var s' := DoContinue(s, c, now);
    var cont := s.conns[c].cont;
    if Indexed(s.core.nodes, t) && !Indexed(s'.core.nodes, t) {
      match cont
      case IndexStarted(e) => IndexKeeps(s.core.nodes, e.node, e.task, e.job, t);
      case UnindexExited(e) =>
        if e.task != t { UnindexKeeps(s.core.nodes, e.node, e.task, t); }
        assert Holds(s'.conns[c].cont, t);
      case _ =>
    }
    if Holds(cont, t) {
      HeldMoves(s, c, now, from, t);
    }
    SameOrMoreConns(s, s', c, from, t);
  }

  lemma HeldMoves(s: Sys, c: nat, now: Protocol.Time, from: nat, t: TaskId)
    requires CanContinue(s, c) && Holds(s.conns[c].cont, t) && from <= |s.core.events|
    ensures Covered(DoContinue(s, c, now), from, t)
  {
    var s' := DoContinue(s, c, now);
    var cont := s.conns[c].cont;
    if cont.SendExit? && cont.exit.task == t {
      assert s'.core.events[|s.core.events|] == ExitedEvent(cont.exit);
    } else {
      assert Holds(s'.conns[c].cont, t) by {
        if cont.LogLost? {
          var i :| 0 <= i < |cont.rest| && cont.rest[i].0 == t;
          if i > 0 { assert cont.rest[1..][i - 1].0 == t; }
        }
      }
    }
  }

  lemma DisconnectKeeps(s: Sys, c: nat, order: seq<(TaskId, JobId)>, from: nat, t: TaskId)
    requires CanDisconnect(s, c, order) && Covered(s, from, t)
    ensures Covered(DoDisconnect(s, c, order), from, t)
  {
    var s' := DoDisconnect(s, c, order);
    var n := s.conns[c].node;
    if Indexed(s.core.nodes, t) {
      var m :| m in s.core.nodes && t in s.core.nodes[m].running;
      if m == n {
        assert t in RunningOn(s.core, n);
        assert Holds(s'.conns[c].cont, t);
      } else {
        assert m in s'.core.nodes;
      }
    }
    SameOrMoreConns(s, s', c, from, t);
  }

  lemma RegisterKeeps(s: Sys, c: nat, n: NodeId, policy: PolicyConfig, from: nat, t: TaskId)
    requires c !in s.conns && DropsNothing(s.core.nodes, n) && Covered(s, from, t)
    ensures Covered(DoRegister(s, c, n, policy), from, t)
  {
    var s' := DoRegister(s, c, n, policy);
    if Indexed(s.core.nodes, t) {
      var m :| m in s.core.nodes && t in s.core.nodes[m].running;
      if m == n {
        m :| m in s.core.nodes - {n} && t in (s.core.nodes - {n})[m].running;
      }
      assert t in s'.core.nodes[m].running;
    } else if InFlight(s.conns, t) {
      var d :| d in s.conns && Holds(s.conns[d].cont, t);
      assert Holds(s'.conns[d].cont, t);
    }
  }

  lemma SameCover(s: Sys, s': Sys, from: nat, t: TaskId)
    requires QuietFor(s, s') && Covered(s, from, t)
    ensures Covered(s', from, t)
  {
    if InFlight(s.conns, t) {
      var d :| d in s.conns && Holds(s.conns[d].cont, t);
      assert Holds(s'.conns[d].cont, t);
    }
  }

  lemma {:induction false} PlaceKeeps(
      core: Core, request: RunRequest, job: JobId, selected: seq<NodeId>, ids: seq<TaskId>, clock: seq<Protocol.Time>,
      t: TaskId)
    requires |selected| <= |ids| == |clock|
    ensures var p := PlaceAll(core, request, job, selected, ids, clock);
      && p.core.events == core.events
      && (Indexed(core.nodes, t) || t in Assigned(p.assignments) ==> Indexed(p.core.nodes, t))
  {
    if selected != [] {
      var last := |selected| - 1;
      PlaceKeeps(core, request, job, selected[..last], ids, clock, t);
      var q := PlaceAll(core, request, job, selected[..last], ids, clock);
      var p := PlaceAll(core, request, job, selected, ids, clock);
      var node, task := selected[last], ids[|q.assignments|];
      if node in q.core.nodes {
        assert task in p.core.nodes[node].running;
        if Indexed(q.core.nodes, t) { IndexKeeps(q.core.nodes, node, task, job, t); }
        forall a | a in p.assignments && a.task == t ensures Indexed(p.core.nodes, t) {
          if a in q.assignments { assert t in Assigned(q.assignments); }
        }
      }
    }
  }

  // ---- All steps ----

  ghost predicate CursorsOk(s: Sys) {
    forall r :: r in s.runs ==> s.runs[r].cursor <= |s.core.events|
  }

  lemma WireCovers(s: Sys, step: WireStep, s': Sys, from: nat, t: TaskId)
    requires NextWire(s, step, s') && WakeSafe(s, Wire(step)) && from <= |s.core.events| && Covered(s, from, t)
    ensures Covered(s', from, t)
  {
    match step
    case Register(c, n, policy) => RegisterKeeps(s, c, n, policy, from, t);
    case ReadMessage(c, now) => ReadKeeps(s, c, now, from, t);
    case Continue(c, now) => ContinueKeeps(s, c, now, from, t);
    case Disconnect(c, order) => DisconnectKeeps(s, c, order, from, t);
    case ReadError(c) => SameCover(s, s', from, t);
  }

  /** The broadcast log only grows, and worker connections touch no run. */
  lemma WireEvents(s: Sys, step: WireStep, s': Sys)
    requires NextWire(s, step, s')
    ensures s.core.events <= s'.core.events && s'.runs == s.runs
  {
  }

  predicate QuietFor(s: Sys, s': Sys) {
    && s'.core.nodes == s.core.nodes && s'.core.events == s.core.events
    && s'.conns.Keys == s.conns.Keys
    && (forall c :: c in s.conns ==> s'.conns[c].cont == s.conns[c].cont)
  }

  lemma WorkIsQuiet(s: Sys, c: nat, step: WorkStep, s': Sys)
    requires NextWork(s, c, step, s')
    ensures QuietFor(s, s') && s'.runs == s.runs
  {
  }

  /** A client's calls touch neither index, log nor handlers; apart from reading an event they add nothing to what a
      client awaits. */
  lemma ClientIsQuiet(s: Sys, step: ClientStep, s': Sys, r: nat)
    requires NextClient(s, step, s') && r in s'.runs
    ensures QuietFor(s, s')
    ensures if r !in s.runs then Awaits(s'.runs[r]) == {} && s'.runs[r].cursor == |s.core.events|
            else if step == ReadEvent(r) then CanReadEvent(s, r) && s' == DoReadEvent(s, r)
            else Awaits(s'.runs[r]) <= Awaits(s.runs[r]) && s'.runs[r].cursor == s.runs[r].cursor
  {
  }

  lemma AwaitedStaysCovered(s: Sys, step: Step, s': Sys, r: nat, t: TaskId)
    requires Next(s, step, s') && WakeSafe(s, step) && CursorsOk(s) && WakeInv(s)
    requires r in s'.runs && t in Awaits(s'.runs[r])
    ensures Covered(s', s'.runs[r].cursor, t)
  {
    match step
    case Wire(wire) =>
      WireEvents(s, wire, s');
      assert Covered(s, s.runs[r].cursor, t);
      WireCovers(s, wire, s', s.runs[r].cursor, t);
    case Work(c, work) =>
      WorkIsQuiet(s, c, work, s');
      assert Covered(s, s.runs[r].cursor, t);
      SameCover(s, s', s.runs[r].cursor, t);
    case Client(call) =>
      ClientIsQuiet(s, call, s', r);
      if call == ReadEvent(r) {
        ReadEventKeeps(s, r, t);
      } else {
        assert Covered(s, s.runs[r].cursor, t);
        SameCover(s, s', s.runs[r].cursor, t);
      }
    case Dispatch(q, request, job, selected, upto, ids, clock) =>
      PlaceKeeps(s.core, request, job, selected[..upto], ids, clock, t);
      if q != r { assert Covered(s, s.runs[r].cursor, t); }
  }

  lemma CursorStaysInside(s: Sys, step: Step, s': Sys, r: nat)
    requires Next(s, step, s') && CursorsOk(s) && r in s'.runs
    ensures s'.runs[r].cursor <= |s'.core.events|
  {
    match step
    case Wire(wire) => WireEvents(s, wire, s');
    case Work(c, work) => WorkIsQuiet(s, c, work, s');
    case Client(call) => ClientIsQuiet(s, call, s', r);
    case Dispatch(q, request, job, selected, upto, ids, clock) =>
      PlaceKeeps(s.core, request, job, selected[..upto], ids, clock, TaskId(""));
  }

  lemma WakeStep(s: Sys, step: Step, s': Sys)
    requires Next(s, step, s') && WakeSafe(s, step) && CursorsOk(s) && WakeInv(s)
    ensures CursorsOk(s') && WakeInv(s')
  {
    forall r | r in s'.runs ensures s'.runs[r].cursor <= |s'.core.events| {
      CursorStaysInside(s, step, s', r);
    }
    forall r, t | r in s'.runs && t in Awaits(s'.runs[r]) ensures Covered(s', s'.runs[r].cursor, t) {
      AwaitedStaysCovered(s, step, s', r, t);
    }
  }

  lemma ReadEventKeeps(s: Sys, r: nat, t: TaskId)
    requires CanReadEvent(s, r) && WakeInv(s) && t in Awaits(DoReadEvent(s, r).runs[r])
    ensures Covered(DoReadEvent(s, r), s.runs[r].cursor + 1, t)
  {
    var run := s.runs[r];
    assert t in Awaits(run);
    assert Covered(s, run.cursor, t);
    if Unread(s.core.events, run.cursor, t) {
      var i :| run.cursor <= i < |s.core.events| && s.core.events[i].ExitedEvent? && s.core.events[i].exited.task == t;
      assert i != run.cursor;
    }
  }

  /** In every state of every run in which no registration forgets a task, nothing a client waits for is lost. */
  lemma {:induction false} NoLostWakeUp(states: seq<Sys>, steps: seq<Step>, i: nat)
    requires Execution(states, steps) && i <= |steps|
    requires forall k :: 0 <= k < |steps| ==> WakeSafe(states[k], steps[k])
    ensures CursorsOk(states[i]) && WakeInv(states[i])
  {
    if i > 0 {
      NoLostWakeUp(states, steps, i - 1);
      assert Next(states[i - 1], steps[i - 1], states[i - 1 + 1]);
      WakeStep(states[i - 1], steps[i - 1], states[i]);
    }
  }

  /** Once no connected node and no handler has any of a client's tasks, what is already in its subscription ends its
      wait. A connection that went silent after a read error keeps its node connected: a client of its tasks waits
      on. */
  lemma DrainedWaiterFinishes(s: Sys, r: nat)
    requires CursorsOk(s) && WakeInv(s) && r in s.runs && s.runs[r].phase.Following?
    requires forall t :: t in s.runs[r].waiting.pending ==> !Indexed(s.core.nodes, t) && !InFlight(s.conns, t)
    ensures WaitAll(s.runs[r].waiting, s.core.events[s.runs[r].cursor..]).pending == {}
  {
    var run := s.runs[r];
    var rest := s.core.events[run.cursor..];
    forall t ensures t !in WaitAll(run.waiting, rest).pending {
      PendingAfter(run.waiting, rest, t);
      FirstExitSeen(rest, t);
      if t in run.waiting.pending {
        assert t in Awaits(run);
        assert Covered(s, run.cursor, t);
        var i :| run.cursor <= i < |s.core.events|
          && s.core.events[i].ExitedEvent? && s.core.events[i].exited.task == t;
        assert rest[i - run.cursor] == s.core.events[i];
      }
    }
  }

  // ---- The condition on registrations is exact ----

  /** Covered otherwise than by the handle of `n`. */
  predicate CoveredWithout(s: Sys, n: NodeId, from: nat, t: TaskId) {
    Indexed(s.core.nodes - {n}, t) || Unread(s.core.events, from, t) || InFlight(s.conns, t)
  }

  lemma RegisteredCover(s: Sys, c: nat, n: NodeId, policy: PolicyConfig, from: nat, t: TaskId)
    requires c !in s.conns
    ensures Covered(DoRegister(s, c, n, policy), from, t)
            <==> CoveredWithout(s, n, from, t)
  {
    var s' := DoRegister(s, c, n, policy);
    if Indexed(s'.core.nodes, t) {
      var m :| m in s'.core.nodes && t in s'.core.nodes[m].running;
      assert m in s.core.nodes - {n} && (s.core.nodes - {n})[m] == s.core.nodes[m];
    }
    if Indexed(s.core.nodes - {n}, t) {
      var m :| m in s.core.nodes - {n} && t in (s.core.nodes - {n})[m].running;
      assert m in s'.core.nodes && s'.core.nodes[m] == s.core.nodes[m];
    }
    if InFlight(s.conns, t) {
      var d :| d in s.conns && Holds(s.conns[d].cont, t);
      assert Holds(s'.conns[d].cont, t);
    }
    if InFlight(s'.conns, t) {
      var d :| d in s'.conns && Holds(s'.conns[d].cont, t);
      assert Holds(s.conns[d].cont, t);
    }
  }

  /** Client `r` awaits `t`, which is indexed under `n`. */
  predicate AwaitsAt(s: Sys, r: nat, n: NodeId, t: TaskId) {
    r in s.runs && t in Awaits(s.runs[r]) && n in s.core.nodes && t in s.core.nodes[n].running
  }

  /** In any one state, a registration keeps every client covered exactly when each task of the replaced handle that a
      client awaits is indexed elsewhere, unread in that client's subscription, or held by a handler under way. */
  lemma RegistrationKeepsIff(s: Sys, c: nat, n: NodeId, policy: PolicyConfig)
    requires c !in s.conns && WakeInv(s)
    ensures WakeInv(DoRegister(s, c, n, policy))
            <==> forall r, t :: AwaitsAt(s, r, n, t) ==> CoveredWithout(s, n, s.runs[r].cursor, t)
  {
    hide Indexed, Unread, InFlight, Covered, CoveredWithout;
    var s' := DoRegister(s, c, n, policy);
    if WakeInv(s') {
      forall r, t | r in s.runs && t in Awaits(s.runs[r]) ensures CoveredWithout(s, n, s.runs[r].cursor, t) {
        assert Covered(s', s'.runs[r].cursor, t);
        RegisteredCover(s, c, n, policy, s.runs[r].cursor, t);
      }
    }
    if forall r, t :: AwaitsAt(s, r, n, t) ==> CoveredWithout(s, n, s.runs[r].cursor, t) {
      forall r, t | r in s'.runs && t in Awaits(s'.runs[r]) ensures Covered(s', s'.runs[r].cursor, t) {
        assert t in Awaits(s.runs[r]) && Covered(s, s.runs[r].cursor, t);
        if !AwaitsAt(s, r, n, t) { IndexedElsewhere(s, n, s.runs[r].cursor, t); }
        RegisteredCover(s, c, n, policy, s.runs[r].cursor, t);
      }
    }
  }

  lemma IndexedElsewhere(s: Sys, n: NodeId, from: nat, t: TaskId)
    requires Covered(s, from, t) && !(n in s.core.nodes && t in s.core.nodes[n].running)
    ensures CoveredWithout(s, n, from, t)
  {
    if Indexed(s.core.nodes, t) {
      var m :| m in s.core.nodes && t in s.core.nodes[m].running;
      assert m in s.core.nodes - {n} && (s.core.nodes - {n})[m] == s.core.nodes[m];
    }
  }
}
