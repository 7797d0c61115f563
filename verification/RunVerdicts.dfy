/** What a connection has heard about a task decides its row, its place in the index and its exits in the log, in every
    concurrent run of workers that echo their ids; with it, the exact conditions on failed kills hold of whole runs. */
module RunVerdicts {
  import opened Protocol
  import opened JobStore
  import opened CoordinatorCore
  import opened Cluster
  import opened Lifecycle
  import opened CoordinatorSteps
  import opened DispatchSteps
  import opened IndexInvariant
  import opened IndexSteps
  import opened LateKills
  import opened Guarantees

  // ---- The invariant ----

  /** The handler has an exit of `t` still to broadcast. */
  predicate Owing(cont: Cont, t: TaskId) {
    || (cont.UnindexExited? && cont.exit.task == t)
    || (cont.RecordExit? && cont.exit.task == t)
    || (cont.SendExit? && cont.exit.task == t)
  }

  predicate Recording(cont: Cont, t: TaskId) {
    cont.RecordExit? && cont.exit.task == t
  }

  predicate Heard(core: Core, cont: Cont, heard: seq<WorkerMessage>, t: TaskId) {
    && t in core.rows
    && (if Recording(cont, t) then StatusAfter(heard, t).Failed? && Unfinished(core.rows[t].status)
        else core.rows[t].status == StatusAfter(heard, t))
    && |Exits(core.events, t)| + (if Owing(cont, t) then 1 else 0) == Tally(Marks(heard, t)).1
  }

  /** While the connection is open, and as long as what it sent about `t` names its node. */
  predicate OnTrack(core: Core, conn: Conn, p: Cluster.Place, t: TaskId) {
    && conn.read <= |conn.sent|
    && (conn.open && From(conn.sent[..conn.read], t, p.node) ==> Heard(core, conn.cont, conn.sent[..conn.read], t))
  }

  predicate TaskOnTrack(s: Sys, t: TaskId) {
    t in s.placed && s.placed[t].conn in s.conns && OnTrack(s.core, s.conns[s.placed[t].conn], s.placed[t], t)
  }

  predicate AllOnTrack(s: Sys) {
    forall t :: t in s.placed ==> TaskOnTrack(s, t)
  }

  lemma {:induction false} IndexedIffUnfinished(messages: seq<WorkerMessage>, t: TaskId)
    ensures Tally(Marks(messages, t)).0 <==> Unfinished(StatusAfter(messages, t))
  {
    if messages != [] {
      var before, mark := messages[..|messages| - 1], MarkOf(messages[|messages| - 1], t);
      IndexedIffUnfinished(before, t);
      MarksSplit(messages, t);
      RowSplit(messages, t);
      TallyOfMore(Marks(before, t), mark);
      hide Marks, MarkOf, Tally, StatusAfter;
    }
  }

  /** One message more. */
  lemma HeardMore(heard: seq<WorkerMessage>, message: WorkerMessage, t: TaskId)
    ensures var (indexed, exits) := Tally(Marks(heard, t));
      var mark := MarkOf(message, t);
      && (mark == [] || mark == [Begun] || mark == [Ended] || mark == [Failure])
      && StatusAfter(heard + [message], t) ==
           (if mark == [Begun] then Running
            else if mark == [Ended] then StatusOf(message.exited)
            else if mark == [Failure] && indexed then Failed
            else StatusAfter(heard, t))
      && Tally(Marks(heard + [message], t)).1 ==
           (if mark == [Ended] || (mark == [Failure] && indexed) then exits + 1 else exits)
      && (Steady(heard + [message], t) <==>
            Steady(heard, t)
            && (!Unfinished(StatusAfter(heard, t)) ==> StatusAfter(heard + [message], t) == StatusAfter(heard, t)))
  {
    var more := heard + [message];
    assert more[..|more| - 1] == heard;
    MarksOfMore(heard, message, t);
    TallyOfMore(Marks(heard, t), MarkOf(message, t));
    hide Marks, Tally;
  }

  lemma FromMore(heard: seq<WorkerMessage>, message: WorkerMessage, t: TaskId, n: NodeId)
    ensures From(heard + [message], t, n) <==> From(heard, t, n) && Names(message, t, n)
  {
    hide Names;
    var more := heard + [message];
    assert forall i :: 0 <= i < |heard| ==> more[i] == heard[i];
    assert more[|heard|] == message;
  }

  // ---- One step ----

  /** Nothing about `t` was read, recorded or broadcast. */
  lemma TrackKept(core: Core, core': Core, conn: Conn, conn': Conn, p: Cluster.Place, t: TaskId)
    requires OnTrack(core, conn, p, t)
    requires t in core.rows && t in core'.rows && core'.rows[t] == core.rows[t]
    requires Exits(core'.events, t) == Exits(core.events, t)
    requires conn'.read == conn.read && conn.sent <= conn'.sent && (conn'.open ==> conn.open)
    requires conn'.open ==> conn'.cont == conn.cont
    ensures OnTrack(core', conn', p, t)
  {
    hide StatusAfter, Tally, Marks, From, Exits;
    assert conn'.sent[..conn'.read] == conn.sent[..conn.read];
  }

  /** Reading a message about another task. */
  lemma ReadOtherTrack(core: Core, core': Core, conn: Conn, conn': Conn, p: Cluster.Place, t: TaskId)
    requires OnTrack(core, conn, p, t) && conn.cont.Idle? && conn.open && conn.read < |conn.sent|
    requires conn'.open && conn'.sent == conn.sent && conn'.read == conn.read + 1
    requires MarkOf(conn.sent[conn.read], t) == [] && !Owing(conn'.cont, t)
    requires t in core.rows && t in core'.rows && core'.rows[t] == core.rows[t]
    requires Exits(core'.events, t) == Exits(core.events, t)
    ensures OnTrack(core', conn', p, t)
  {
    hide StatusAfter, Tally, Marks, From, Exits, MarkOf, Steady;
    var heard := conn.sent[..conn.read];
    assert conn.sent[..conn.read + 1] == heard + [conn.sent[conn.read]];
    HeardMore(heard, conn.sent[conn.read], t);
    FromMore(heard, conn.sent[conn.read], t, p.node);
  }

  /** Reading a message about `t`. */
  lemma ReadOwnTrack(core: Core, conn: Conn, p: Cluster.Place, now: Protocol.Time, t: TaskId)
    requires OnTrack(core, conn, p, t) && Located(core, conn, p, t)
    requires conn.cont.Idle? && conn.open && conn.read < |conn.sent| && Regards(conn.sent[conn.read], t)
    ensures var (core', cont') := Read(core, conn.sent[conn.read], now);
      OnTrack(core', conn.(read := conn.read + 1, cont := cont'), p, t)
  {
    hide StatusAfter, Tally, Marks, From, Exits, Steady;
    var heard, message := conn.sent[..conn.read], conn.sent[conn.read];
    assert conn.sent[..conn.read + 1] == heard + [message];
    HeardMore(heard, message, t);
    FromMore(heard, message, t, p.node);
    IndexedIffUnfinished(heard, t);
  }

  /** A message that is not about `t`, or an error that names no node, leaves `t` alone. */
  lemma OtherRowKept(core: Core, message: WorkerMessage, now: Protocol.Time, t: TaskId)
    requires !Regards(message, t) || (message.Error? && message.error.node.None?)
    ensures var (core', cont') := Read(core, message, now);
      && (t in core.rows ==> t in core'.rows && core'.rows[t] == core.rows[t])
      && core'.events == core.events && !Owing(cont', t)
    ensures !Regards(message, t) ==> MarkOf(message, t) == []
  {
  }

  lemma ReadTrack(s: Sys, c: nat, now: Protocol.Time, t: TaskId)
    requires Tracked(s) && CanRead(s, c) && TaskOnTrack(s, t)
    ensures TaskOnTrack(DoRead(s, c, now), t)
  {
    hide Tracked, Located, OnTrack, Exits;
    AboutLocated(s, t);
    RowOfLocated(s, t);
    NextEchoes(s, c);
    AboutLink(s, c);
    var conn, p := s.conns[c], s.placed[t];
    var message := conn.sent[conn.read];
    var (core', cont') := Read(s.core, message, now);
    var conn' := conn.(read := conn.read + 1, cont := cont');
    if p.conn == c && Regards(message, t) {
      ReadOwnTrack(s.core, conn, p, now, t);
    } else {
      OtherRowKept(s.core, message, now, t);
      if p.conn == c {
        ReadOtherTrack(s.core, core', conn, conn', p, t);
      } else {
        TrackKept(s.core, core', s.conns[p.conn], s.conns[p.conn], p, t);
      }
    }
  }

  /** The section that moves an exit of `t` on. */
  lemma ContinueOwnTrack(
      core: Core, conn: Conn, p: Cluster.Place, now: Protocol.Time, t: TaskId, placed: Placed, c: nat)
    requires OnTrack(core, conn, p, t) && conn.open && Moves(conn.cont, t) && ContOk(placed, core.rows, c, conn)
    ensures var (core', cont') := Advance(core, conn.cont, now); OnTrack(core', conn.(cont := cont'), p, t)
  {
    hide StatusAfter, Tally, Marks, From, Exits;
    match conn.cont
    case SendExit(e, then_) => ExitsOfMore(core.events, ExitedEvent(e), t);
    case _ =>
  }

  lemma ContinueTrack(s: Sys, c: nat, now: Protocol.Time, t: TaskId)
    requires Tracked(s) && CanContinue(s, c) && TaskOnTrack(s, t)
    ensures TaskOnTrack(DoContinue(s, c, now), t)
  {
    hide Tracked, OnTrack, Exits, EchoedOnly, InboxOk, TasksOk;
    RowOfLocated(s, t);
    AboutLink(s, c);
    var conn, p := s.conns[c], s.placed[t];
    var (core', cont') := Advance(s.core, conn.cont, now);
    if p.conn == c && conn.open && Moves(conn.cont, t) {
      ContinueOwnTrack(s.core, conn, p, now, t, s.placed, c);
    } else if p.conn == c && !conn.open {
      ClosedTrack(s.core, core', conn, conn.(cont := cont'), p, t);
    } else {
      assert !Moves(conn.cont, t);
      AdvanceOthers(s.core, conn.cont, now, t);
      if p.conn == c {
        StillTrack(s.core, core', conn, conn.(cont := cont'), p, t);
      } else {
        TrackKept(s.core, core', s.conns[p.conn], s.conns[p.conn], p, t);
      }
    }
  }

  lemma ClosedTrack(core: Core, core': Core, conn: Conn, conn': Conn, p: Cluster.Place, t: TaskId)
    requires OnTrack(core, conn, p, t) && !conn'.open && conn'.read == conn.read && conn'.sent == conn.sent
    ensures OnTrack(core', conn', p, t)
  {
  }

  /** A section about another task of the connection. */
  lemma StillTrack(core: Core, core': Core, conn: Conn, conn': Conn, p: Cluster.Place, t: TaskId)
    requires OnTrack(core, conn, p, t) && SameFor(core, core', t)
    requires conn'.read == conn.read && conn'.sent == conn.sent && conn'.open == conn.open
    requires !Owing(conn.cont, t) && !Owing(conn'.cont, t)
    ensures OnTrack(core', conn', p, t)
  {
    hide StatusAfter, Tally, Marks, From, Exits;
  }

  /** Steps that read, record and broadcast nothing. */
  lemma QuietTrack(s: Sys, s': Sys, t: TaskId)
    requires TaskOnTrack(s, t) && t in s.core.rows && t in s'.placed && s'.placed[t] == s.placed[t]
    requires t in s'.core.rows && s'.core.rows[t] == s.core.rows[t] && s'.core.events == s.core.events
    requires s.placed[t].conn in s'.conns
    requires var conn, conn' := s.conns[s.placed[t].conn], s'.conns[s.placed[t].conn];
      && conn'.read == conn.read && conn.sent <= conn'.sent
      && (conn'.open ==> conn.open && conn'.cont == conn.cont)
    ensures TaskOnTrack(s', t)
  {
    hide OnTrack;
    TrackKept(s.core, s'.core, s.conns[s.placed[t].conn], s'.conns[s.placed[t].conn], s.placed[t], t);
  }

  lemma WireTrack(s: Sys, step: WireStep, s': Sys, t: TaskId)
    requires Tracked(s) && NextWire(s, step, s') && TaskOnTrack(s, t)
    ensures TaskOnTrack(s', t)
  {
    hide Tracked;
    RowOfLocated(s, t);
    hide OnTrack;
    match step
    case ReadMessage(c, now) => ReadTrack(s, c, now, t);
    case Continue(c, now) => ContinueTrack(s, c, now, t);
    case _ => QuietTrack(s, s', t);
  }

  lemma WorkTrack(s: Sys, c: nat, step: WorkStep, s': Sys, t: TaskId)
    requires Tracked(s) && NextWork(s, c, step, s') && TaskOnTrack(s, t)
    ensures TaskOnTrack(s', t)
  {
    hide Tracked;
    RowOfLocated(s, t);
    hide OnTrack;
    QuietTrack(s, s', t);
  }

  lemma ClientTrack(s: Sys, step: ClientStep, s': Sys, t: TaskId)
    requires Tracked(s) && NextClient(s, step, s') && TaskOnTrack(s, t)
    ensures TaskOnTrack(s', t)
  {
    hide Tracked;
    RowOfLocated(s, t);
    hide OnTrack;
    QuietTrack(s, s', t);
  }

  // ---- A task that is placed now ----

  lemma {:induction false} HeardNothing(heard: seq<WorkerMessage>, t: TaskId)
    requires forall i :: 0 <= i < |heard| ==> MarkOf(heard[i], t) == []
    ensures StatusAfter(heard, t).Queued? && Marks(heard, t) == [] && Tally(Marks(heard, t)) == (true, 0)
    ensures Steady(heard, t)
  {
    if heard != [] {
      HeardNothing(heard[..|heard| - 1], t);
    }
  }

  /** What a connection has sent says nothing of a task that is not placed, if it names its node whenever it names
      `t`. */
  lemma UnplacedUnheard(placed: Placed, c: nat, heard: seq<WorkerMessage>, t: TaskId, n: NodeId)
    requires EchoedOnly(placed, c, heard) && t !in placed && From(heard, t, n)
    ensures StatusAfter(heard, t).Queued? && Tally(Marks(heard, t)) == (true, 0) && Steady(heard, t)
  {
    forall i | 0 <= i < |heard| ensures MarkOf(heard[i], t) == [] {
      assert Echoes(placed, c, heard[i]) && Names(heard[i], t, n);
    }
    HeardNothing(heard, t);
  }

  lemma HeardPrefix(placed: Placed, c: nat, sent: seq<WorkerMessage>, k: nat)
    requires EchoedOnly(placed, c, sent) && k <= |sent|
    ensures EchoedOnly(placed, c, sent[..k])
  {
    hide Echoes;
  }

  /** Reading never gets ahead of sending. */
  predicate ReadsOk(s: Sys) {
    forall c :: c in s.conns ==> s.conns[c].read <= |s.conns[c].sent|
  }

  lemma UnheardTrack(placed: Placed, core: Core, c: nat, conn: Conn, p: Cluster.Place, t: TaskId)
    requires EchoedOnly(placed, c, conn.sent) && t !in placed && conn.read <= |conn.sent|
    requires t in core.rows && core.rows[t].status.Queued? && Exits(core.events, t) == [] && !Owing(conn.cont, t)
    ensures OnTrack(core, conn, p, t)
  {
    HeardPrefix(placed, c, conn.sent, conn.read);
    hide StatusAfter, Marks, Tally, Exits, EchoedOnly, From, Steady;
    if From(conn.sent[..conn.read], t, p.node) {
      UnplacedUnheard(placed, c, conn.sent[..conn.read], t, p.node);
    }
  }

  lemma UnheardExits(placed: Placed, core: Core, t: TaskId)
    requires HistoryOk(placed, core) && t !in placed
    ensures Exits(core.events, t) == []
  {
    NoExits(core.events, t);
  }

  lemma NewTrack(s: Sys, r: nat, job: JobId, p: Placement, run': Run, i: nat)
    requires Tracked(s) && ReadsOk(s) && Placing(s, job, p) && i < |p.assignments|
    ensures TaskOnTrack(AfterPlacing(s, r, p, run'), p.assignments[i].task)
  {
    hide Tracked, HistoryOk, KillsOk, OnTrack, Exits, EchoedOnly, InboxOk, TasksOk;
    var a, d := p.assignments[i], p.dispatch[i];
    TrackedParts(s);
    assert NewTask(s, job, p, a, d) && p.core.events == s.core.events;
    assert NodeOk(s.placed, s.conns, a.node, s.core.nodes[a.node]);
    AboutLink(s, d.0);
    HoldsNothing(s.placed, s.core.rows, d.0, s.conns[d.0], a.task);
    UnheardExits(s.placed, s.core, a.task);
    PlacedHere(s, r, job, p, i);
    hide Placing, Places, NodesOk, ContOk, Owing;
    UnheardTrack(s.placed, p.core, d.0, s.conns[d.0], Cluster.Place(job, a.node, d.0, r, i), a.task);
  }

  lemma HoldsNothing(placed: Placed, rows: Rows, c: nat, conn: Conn, t: TaskId)
    requires ContOk(placed, rows, c, conn) && t !in placed
    ensures !Owing(conn.cont, t)
  {
  }

  lemma DispatchTrack(
      s: Sys, r: nat, request: RunRequest, job: JobId, selected: seq<NodeId>, upto: nat, ids: seq<TaskId>,
      clock: seq<Protocol.Time>, t: TaskId)
    requires Tracked(s) && ReadsOk(s) && CanDispatch(s, r, request, job, selected, upto, ids, clock)
    requires t in s.placed ==> TaskOnTrack(s, t)
    requires t in DoDispatch(s, r, request, job, selected, upto, ids, clock).placed
    ensures TaskOnTrack(DoDispatch(s, r, request, job, selected, upto, ids, clock), t)
  {
    hide Tracked, Placing, FreshIds, OnTrack, Places;
    var p := PlaceAll(s.core, request, job, selected[..upto], ids, clock);
    PlacementOf(s, request, job, selected[..upto], ids, clock);
    PlacedGrow(s, r, job, p);
    var s' := DoDispatch(s, r, request, job, selected, upto, ids, clock);
    if t in s.placed {
      RowOfLocated(s, t);
      assert s'.placed[t] == s.placed[t];
      assert p.core.rows[t] == s.core.rows[t] && p.core.events == s.core.events by { PlacedSame(s, job, p, t); }
      QuietTrack(s, s', t);
    } else {
      var i :| 0 <= i < |p.assignments| && p.assignments[i].task == t;
      NewTrack(s, r, job, p, s'.runs[r], i);
    }
  }

  lemma PlacedSame(s: Sys, job: JobId, p: Placement, t: TaskId)
    requires Placing(s, job, p) && t in s.core.rows
    ensures t in p.core.rows && p.core.rows[t] == s.core.rows[t] && p.core.events == s.core.events
  {
  }

  // ---- Every step ----

  lemma WireKeepsReads(s: Sys, step: WireStep, s': Sys)
    requires NextWire(s, step, s') && ReadsOk(s)
    ensures ReadsOk(s')
  {
  }

  lemma WorkKeepsReads(s: Sys, c: nat, step: WorkStep, s': Sys)
    requires NextWork(s, c, step, s') && ReadsOk(s)
    ensures ReadsOk(s')
  {
  }

  lemma ClientKeepsReads(s: Sys, step: ClientStep, s': Sys)
    requires NextClient(s, step, s') && ReadsOk(s)
    ensures ReadsOk(s')
  {
  }

  lemma StepKeepsReads(s: Sys, step: Step, s': Sys)
    requires Next(s, step, s') && ReadsOk(s)
    ensures ReadsOk(s')
  {
    hide NextWire, NextWork, NextClient;
    match step
    case Wire(wire) => WireKeepsReads(s, wire, s');
    case Work(c, work) => WorkKeepsReads(s, c, work, s');
    case Client(call) => ClientKeepsReads(s, call, s');
    case Dispatch(r, request, job, selected, upto, ids, clock) => hide PlaceAll;
  }

  lemma StepKeepsTrack(s: Sys, step: Step, s': Sys)
    requires Tracked(s) && ReadsOk(s) && AllOnTrack(s) && Next(s, step, s')
    ensures AllOnTrack(s')
  {
    hide Tracked, TaskOnTrack, NextWire, NextWork, NextClient, CanDispatch, ReadsOk;
    forall t | t in s'.placed ensures TaskOnTrack(s', t) {
      match step
      case Wire(wire) => WireKeepsPlaces(s, wire, s'); WireTrack(s, wire, s', t);
      case Work(c, work) => WorkKeepsPlaces(s, c, work, s'); WorkTrack(s, c, work, s', t);
      case Client(call) => ClientKeepsPlaces(s, call, s'); ClientTrack(s, call, s', t);
      case Dispatch(r, request, job, selected, upto, ids, clock) =>
        DispatchTrack(s, r, request, job, selected, upto, ids, clock, t);
    }
  }

  lemma {:induction false} TrackHolds(states: seq<Sys>, steps: seq<Step>, i: nat)
    requires EchoingRun(states, steps) && i <= |steps|
    ensures Tracked(states[i]) && ReadsOk(states[i]) && AllOnTrack(states[i])
  {
    TrackedHolds(states, steps, i);
    if i > 0 {
      TrackHolds(states, steps, i - 1);
      assert Next(states[i - 1], steps[i - 1], states[i - 1 + 1]);
      hide Tracked, AllOnTrack, ReadsOk, Next;
      StepKeepsReads(states[i - 1], steps[i - 1], states[i]);
      StepKeepsTrack(states[i - 1], steps[i - 1], states[i]);
    }
  }

  /** In every state of every run of id-echoing workers, for a task whose open connection has no handler under way: what
      was read about it so far decides its row, whether it is indexed, and how often its exit was broadcast. */
  lemma HeardDecides(states: seq<Sys>, steps: seq<Step>, i: nat, t: TaskId)
    requires EchoingRun(states, steps) && i <= |steps| && t in states[i].placed
    ensures states[i].placed[t].conn in states[i].conns && t in states[i].core.rows
    ensures var s, p := states[i], states[i].placed[t];
      var conn := s.conns[p.conn];
      && conn.read <= |conn.sent|
      && (conn.open && conn.cont.Idle? && From(conn.sent[..conn.read], t, p.node) ==>
            var (indexed, exits) := Tally(Marks(conn.sent[..conn.read], t));
            && s.core.rows[t].status == StatusAfter(conn.sent[..conn.read], t)
            && (AtHome(s.core.nodes, p, t) <==> indexed)
            && |Exits(s.core.events, t)| == exits)
  {
    TrackHolds(states, steps, i);
    var s := states[i];
    assert TaskOnTrack(s, t);
    hide Tracked, EchoingRun, AtHome, OnlyAt, Exits, From, Marks, StatusAfter, Tally;
    AboutLocated(s, t);
    var conn := s.conns[s.placed[t].conn];
    IndexedIffUnfinished(conn.sent[..conn.read], t);
  }

  // ---- Failed kills, in whole runs ----

  /** Over the first `i` steps a finished row of `t` keeps its status. */
  ghost predicate RowKeeps(states: seq<Sys>, i: nat, t: TaskId)
    requires i < |states|
  {
    forall k :: 0 <= k < i ==> RowKept(states[k], states[k + 1], t)
  }

  predicate RowKept(s: Sys, s': Sys, t: TaskId) {
    t in s.core.rows && !Unfinished(s.core.rows[t].status) ==>
      t in s'.core.rows && s'.core.rows[t].status == s.core.rows[t].status
  }

  /** What was read on the connection of `t`. */
  function HeardOf(s: Sys, t: TaskId): seq<WorkerMessage>
    requires t in s.placed && s.placed[t].conn in s.conns
  {
    var conn := s.conns[s.placed[t].conn];
    if conn.read <= |conn.sent| then conn.sent[..conn.read] else conn.sent
  }

  predicate Tellable(s: Sys, t: TaskId) {
    && t in s.placed && s.placed[t].conn in s.conns
    && s.conns[s.placed[t].conn].open && From(HeardOf(s, t), t, s.placed[t].node)
  }

  lemma AboutTrack(s: Sys, t: TaskId)
    requires AllOnTrack(s) && Tellable(s, t)
    ensures Heard(s.core, s.conns[s.placed[t].conn].cont, HeardOf(s, t), t)
    ensures s.conns[s.placed[t].conn].read <= |s.conns[s.placed[t].conn].sent|
  {
    assert TaskOnTrack(s, t);
    hide Heard, From;
  }

  /** What is read next on the connection of `t`, if the step reads there. */
  predicate ReadsThere(s: Sys, step: Step, t: TaskId) {
    t in s.placed && step.Wire? && step.wire.ReadMessage? && step.wire.conn == s.placed[t].conn
  }

  /** A step that does not read there adds nothing to what was heard and takes up no exit to record. */
  lemma NothingHeard(s: Sys, step: Step, s': Sys, t: TaskId)
    requires Tracked(s) && ReadsOk(s) && Next(s, step, s') && !ReadsThere(s, step, t) && t in s.placed
    requires Tellable(s', t)
    ensures Tellable(s, t) && s'.placed[t] == s.placed[t] && HeardOf(s', t) == HeardOf(s, t)
    ensures Recording(s'.conns[s.placed[t].conn].cont, t) ==> Recording(s.conns[s.placed[t].conn].cont, t)
  {
    hide Tracked, From, Next, ContOk, EchoedOnly, InboxOk, TasksOk, Located;
    var c := s.placed[t].conn;
    AboutLocated(s, t);
    AboutLink(s, c);
    SamePlace(s, step, s', t);
    SameEar(s, step, s', c, t);
    EarHears(s.conns[c], s'.conns[c], t);
  }

  lemma EarHears(conn: Conn, conn': Conn, t: TaskId)
    requires EarKept(conn, conn', t) && conn.read <= |conn.sent|
    ensures conn'.read <= |conn'.sent| && conn'.sent[..conn'.read] == conn.sent[..conn.read]
  {
  }

  lemma SamePlace(s: Sys, step: Step, s': Sys, t: TaskId)
    requires Next(s, step, s') && t in s.placed
    ensures t in s'.placed && s'.placed[t] == s.placed[t]
  {
    hide NextWire, NextWork, NextClient;
    match step
    case Wire(wire) => WireKeepsPlaces(s, wire, s');
    case Work(c, work) => WorkKeepsPlaces(s, c, work, s');
    case Client(call) => ClientKeepsPlaces(s, call, s');
    case Dispatch(r, request, job, selected, upto, ids, clock) =>
      hide FreshIds, Placing, Places;
      var p := PlaceAll(s.core, request, job, selected[..upto], ids, clock);
      PlacementOf(s, request, job, selected[..upto], ids, clock);
      PlacedGrow(s, r, job, p);
  }

  lemma WireKeepsPlaces(s: Sys, step: WireStep, s': Sys)
    requires NextWire(s, step, s')
    ensures s'.placed == s.placed
  {
  }

  lemma WorkKeepsPlaces(s: Sys, c: nat, step: WorkStep, s': Sys)
    requires NextWork(s, c, step, s')
    ensures s'.placed == s.placed
  {
  }

  lemma ClientKeepsPlaces(s: Sys, step: ClientStep, s': Sys)
    requires NextClient(s, step, s')
    ensures s'.placed == s.placed
  {
  }

  /** The coordinator's side of a connection that is not read there. */
  predicate EarKept(conn: Conn, conn': Conn, t: TaskId) {
    && conn'.read == conn.read && conn.sent <= conn'.sent
    && (conn'.open ==> conn.open && (Recording(conn'.cont, t) ==> Recording(conn.cont, t)))
  }

  lemma WireEar(s: Sys, step: WireStep, s': Sys, c: nat, t: TaskId)
    requires NextWire(s, step, s') && c in s.conns && ContOk(s.placed, s.core.rows, c, s.conns[c])
    requires !(step.ReadMessage? && step.conn == c)
    ensures c in s'.conns && EarKept(s.conns[c], s'.conns[c], t)
  {
    match step
    case Continue(d, now) => hide Index, Unindex;
    case _ =>
  }

  lemma WorkEar(s: Sys, d: nat, step: WorkStep, s': Sys, c: nat, t: TaskId)
    requires NextWork(s, d, step, s') && c in s.conns
    ensures c in s'.conns && EarKept(s.conns[c], s'.conns[c], t)
  {
  }

  lemma ClientEar(s: Sys, step: ClientStep, s': Sys, c: nat, t: TaskId)
    requires NextClient(s, step, s') && c in s.conns
    ensures c in s'.conns && EarKept(s.conns[c], s'.conns[c], t)
  {
  }

  lemma SameEar(s: Sys, step: Step, s': Sys, c: nat, t: TaskId)
    requires Next(s, step, s') && c in s.conns && ContOk(s.placed, s.core.rows, c, s.conns[c])
    requires !(step.Wire? && step.wire.ReadMessage? && step.wire.conn == c)
    ensures c in s'.conns && EarKept(s.conns[c], s'.conns[c], t)
  {
    hide NextWire, NextWork, NextClient, ContOk;
    match step
    case Wire(wire) => WireEar(s, wire, s', c, t);
    case Work(d, work) => WorkEar(s, d, work, s', c, t);
    case Client(call) => ClientEar(s, call, s', c, t);
    case Dispatch(r, request, job, selected, upto, ids, clock) => hide PlaceAll, Places;
  }

  /** What was heard tells of every step whether it kept a finished row. */
  lemma StepSteady(s: Sys, step: Step, s': Sys, t: TaskId)
    requires Tracked(s) && ReadsOk(s) && AllOnTrack(s) && Next(s, step, s') && AllOnTrack(s')
    requires t in s.placed && Tellable(s', t)
    ensures Tellable(s, t)
    ensures Steady(HeardOf(s', t), t) <==> Steady(HeardOf(s, t), t) && RowKept(s, s', t)
  {
    if ReadsThere(s, step, t) {
      ReadSteady(s, step.wire.conn, step.wire.now, t);
    } else {
      hide Tracked, AllOnTrack, Next, Steady, StatusAfter, Tally, Marks, Exits, HeardOf;
      NothingHeard(s, step, s', t);
      AboutTrack(s, t);
      AboutTrack(s', t);
    }
  }

  lemma ReadSteady(s: Sys, c: nat, now: Protocol.Time, t: TaskId)
    requires CanRead(s, c) && t in s.placed && s.placed[t].conn == c
    requires AllOnTrack(s) && AllOnTrack(DoRead(s, c, now)) && Tellable(DoRead(s, c, now), t)
    ensures Tellable(s, t)
    ensures Steady(HeardOf(DoRead(s, c, now), t), t) <==> Steady(HeardOf(s, t), t) && RowKept(s, DoRead(s, c, now), t)
  {
    hide AllOnTrack, Steady, StatusAfter, Tally, Marks, Exits, From, HeardOf, MarkOf, Read;
    var conn, s' := s.conns[c], DoRead(s, c, now);
    var message := conn.sent[conn.read];
    HeardNext(s, c, now, t);
    FromMore(HeardOf(s, t), message, t, s.placed[t].node);
    HeardMore(HeardOf(s, t), message, t);
    AboutTrack(s, t);
    AboutTrack(s', t);
    RecordingKeepsRow(s.core, message, now, t);
  }

  lemma HeardNext(s: Sys, c: nat, now: Protocol.Time, t: TaskId)
    requires CanRead(s, c) && t in s.placed && s.placed[t].conn == c
    ensures HeardOf(DoRead(s, c, now), t) == HeardOf(s, t) + [s.conns[c].sent[s.conns[c].read]]
  {
    hide Read;
  }

  lemma RecordingKeepsRow(core: Core, message: WorkerMessage, now: Protocol.Time, t: TaskId)
    ensures var (core', cont') := Read(core, message, now); Recording(cont', t) ==> core'.rows == core.rows
  {
  }

  lemma AllRowsKept(s: Sys, step: Step, s': Sys)
    requires Next(s, step, s')
    ensures forall t :: t in s.core.rows ==> t in s'.core.rows
  {
    hide NextWork, NextClient;
    match step
    case Wire(wire) => WireRowsKept(s, wire, s');
    case Work(c, work) => WorkKeepsCore(s, c, work, s');
    case Client(call) => ClientKeepsRows(s, call, s');
    case Dispatch(r, request, job, selected, upto, ids, clock) =>
      forall t | t in s.core.rows ensures t in s'.core.rows {
        PlaceRows(s.core, request, job, selected[..upto], ids, clock, t);
      }
  }

  lemma WireRowsKept(s: Sys, step: WireStep, s': Sys)
    requires NextWire(s, step, s')
    ensures forall t :: t in s.core.rows ==> t in s'.core.rows
  {
  }

  lemma EchoingStep(states: seq<Sys>, steps: seq<Step>, i: nat)
    requires EchoingRun(states, steps) && i <= |steps|
    ensures |states| == |steps| + 1
    ensures i > 0 ==> Next(states[i - 1], steps[i - 1], states[i])
  {
    hide Next, Echoing, Init;
    if i > 0 {
      assert Next(states[i - 1], steps[i - 1], states[i - 1 + 1]);
    }
  }

  lemma {:induction false} RowsStay(states: seq<Sys>, steps: seq<Step>, k: nat, i: nat, t: TaskId)
    requires EchoingRun(states, steps) && k <= i <= |steps| && t in states[k].core.rows
    ensures t in states[i].core.rows
  {
    hide Next, EchoingRun;
    EchoingStep(states, steps, i);
    if k < i {
      RowsStay(states, steps, k, i - 1, t);
      AllRowsKept(states[i - 1], steps[i - 1], states[i]);
    }
  }

  /** A task is placed before anything is recorded or said of it. */
  lemma PlacedFirst(s: Sys, step: Step, s': Sys, t: TaskId)
    requires Tracked(s) && ReadsOk(s) && Next(s, step, s') && t !in s.placed && Tellable(s', t)
    ensures t !in s.core.rows && Steady(HeardOf(s', t), t)
  {
    assert t in s'.placed;
    hide Tracked, Tellable, Steady, NextWire, NextWork, NextClient, ReadsOk;
    match step
    case Wire(wire) => WireKeepsPlaces(s, wire, s');
    case Work(c, work) => WorkKeepsPlaces(s, c, work, s');
    case Client(call) => ClientKeepsPlaces(s, call, s');
    case Dispatch(r, request, job, selected, upto, ids, clock) =>
      hide FreshIds, Placing, Places, PlaceAll;
      var p := PlaceAll(s.core, request, job, selected[..upto], ids, clock);
      PlacementOf(s, request, job, selected[..upto], ids, clock);
      PlacedGrow(s, r, job, p);
      var i :| 0 <= i < |p.assignments| && p.assignments[i].task == t;
      NewInRows(s, job, p, i);
      NewUnheard(s, s', t);
  }

  /** The connection of a task that is placed now says nothing of it. */
  lemma NewUnheard(s: Sys, s': Sys, t: TaskId)
    requires Tracked(s) && ReadsOk(s) && s'.conns == s.conns && t !in s.placed && Tellable(s', t)
    ensures Steady(HeardOf(s', t), t)
  {
    hide Tracked, From, Steady, EchoedOnly, ContOk, InboxOk, TasksOk, Marks, Tally, StatusAfter;
    var c := s'.placed[t].conn;
    AboutLink(s, c);
    HeardPrefix(s.placed, c, s.conns[c].sent, s.conns[c].read);
    UnplacedUnheard(s.placed, c, HeardOf(s', t), t, s'.placed[t].node);
  }

  lemma NewInRows(s: Sys, job: JobId, p: Placement, i: nat)
    requires Placing(s, job, p) && i < |p.assignments|
    ensures p.assignments[i].task !in s.core.rows
  {
    assert NewTask(s, job, p, p.assignments[i], p.dispatch[i]);
  }

  lemma {:induction false} RowKeepsIffSteady(states: seq<Sys>, steps: seq<Step>, i: nat, t: TaskId)
    requires EchoingRun(states, steps) && i <= |steps| && Tellable(states[i], t)
    ensures RowKeeps(states, i, t) <==> Steady(HeardOf(states[i], t), t)
  {
    hide Tracked, AllOnTrack, ReadsOk, Next, Steady, Tellable, HeardOf, RowKept, RowKeeps, EchoingRun;
    EchoingStep(states, steps, i);
    if i == 0 {
      NobodyPlaced(states, steps, t);
    } else {
      var s, s' := states[i - 1], states[i];
      TrackHolds(states, steps, i - 1);
      TrackHolds(states, steps, i);
      if t in s.placed {
        StepSteady(s, steps[i - 1], s', t);
        RowKeepsIffSteady(states, steps, i - 1, t);
        RowKeepsMore(states, i, t);
      } else {
        PlacedFirst(s, steps[i - 1], s', t);
        NoRowSoFar(states, steps, i, t);
      }
    }
  }

  lemma NobodyPlaced(states: seq<Sys>, steps: seq<Step>, t: TaskId)
    requires EchoingRun(states, steps)
    ensures !Tellable(states[0], t)
  {
    hide Next, Echoing, From;
  }

  lemma RowKeepsMore(states: seq<Sys>, i: nat, t: TaskId)
    requires 0 < i < |states|
    ensures RowKeeps(states, i, t) <==> RowKeeps(states, i - 1, t) && RowKept(states[i - 1], states[i], t)
  {
    hide RowKept;
    assert states[i - 1 + 1] == states[i];
  }

  lemma NoRowSoFar(states: seq<Sys>, steps: seq<Step>, i: nat, t: TaskId)
    requires EchoingRun(states, steps) && 0 < i <= |steps| && t !in states[i - 1].core.rows
    ensures RowKeeps(states, i, t)
  {
    hide RowKept;
    forall k | 0 <= k < i ensures RowKept(states[k], states[k + 1], t) {
      NoRowYet(states, steps, k, i - 1, t);
    }
  }

  lemma NoRowYet(states: seq<Sys>, steps: seq<Step>, k: nat, i: nat, t: TaskId)
    requires EchoingRun(states, steps) && k <= i < |steps| && t !in states[i].core.rows
    ensures RowKept(states[k], states[k + 1], t)
  {
    if t in states[k].core.rows {
      RowsStay(states, steps, k, i, t);
    }
  }

  /** In every concurrent run, the row of a task on an open connection never left a finished status, from the first
      state to this one, exactly when the failed kills that were read for it came in time. */
  lemma FinishedRowStaysInRunIff(states: seq<Sys>, steps: seq<Step>, i: nat, t: TaskId)
    requires EchoingRun(states, steps) && i <= |steps| && Tellable(states[i], t)
    requires WithoutFailures(Marks(HeardOf(states[i], t), t)) <= [Begun, Ended]
    ensures RowKeeps(states, i, t) <==> KillsInTime(HeardOf(states[i], t), t)
  {
    RowKeepsIffSteady(states, steps, i, t);
    SteadyIff(HeardOf(states[i], t), t);
  }

  /** In every concurrent run, a task that started and exited has one exit in the log, once its handler is done, exactly
      when every failed kill that was read for it came after its exit. */
  lemma OneExitInRunIff(states: seq<Sys>, steps: seq<Step>, i: nat, t: TaskId)
    requires EchoingRun(states, steps) && i <= |steps| && Tellable(states[i], t)
    requires states[i].conns[states[i].placed[t].conn].cont.Idle?
    requires WithoutFailures(Marks(HeardOf(states[i], t), t)) == [Begun, Ended]
    ensures |Exits(states[i].core.events, t)| == 1 <==> Complete(Marks(HeardOf(states[i], t), t))
  {
    hide Exits, Marks, From, Complete, WithoutFailures, AtHome;
    HeardDecides(states, steps, i, t);
    TallyOfRun(Marks(HeardOf(states[i], t), t));
  }
}
