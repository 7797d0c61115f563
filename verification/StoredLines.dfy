/** What the store keeps of a task's output, over every concurrent run: the lines its connection has read, each once and
    in order, and behind them one line about its lost node if it was lost unfinished. */
module StoredLines {
  import opened Protocol
  import opened JobStore
  import opened CoordinatorCore
  import opened Cluster
  import opened WakeUp
  import opened Lifecycle
  import opened DispatchSteps
  import opened IndexInvariant
  import opened Guarantees
  import opened RunVerdicts

  /** The stored lines about `t`. */
  function LinesAbout(logs: seq<LogLine>, t: TaskId): seq<LogLine> {
    if logs == [] then []
    else
      var last := logs[|logs| - 1];
      LinesAbout(logs[..|logs| - 1], t) + if last.task == t then [last] else []
  }

  /** The lines about `t` among what was received. */
  function LinesIn(messages: seq<WorkerMessage>, t: TaskId): seq<LogLine> {
    if messages == [] then []
    else
      var last := messages[|messages| - 1];
      LinesIn(messages[..|messages| - 1], t) + if last.Log? && last.log.task == t then [last.log] else []
  }

  /** What was read on a connection. */
  function HeardOn(conn: Conn): seq<WorkerMessage> {
    if conn.read <= |conn.sent| then conn.sent[..conn.read] else conn.sent
  }

  /** The handler of a lost node has still to store its line about `t`. */
  predicate AwaitsLine(cont: Cont, t: TaskId) {
    match cont
    case LogLost(_, rest) => Lists(rest, t)
    case SendLostLog(_, rest, _) => Lists(rest, t)
    case RecordExit(_, then_) => QueuedBehind(then_, t)
    case SendExit(_, then_) => QueuedBehind(then_, t)
    case _ => false
  }

  /** Lines about `t` were read on connection `c` only. */
  predicate OnlyHeardAt(s: Sys, c: nat, t: TaskId) {
    forall d :: d in s.conns && d != c ==> LinesIn(HeardOn(s.conns[d]), t) == []
  }

  predicate IsLostLine(line: LogLine, t: TaskId, p: Cluster.Place) {
    line == LogLine(p.job, t, p.node, System, line.timestamp, "worker disconnected", 0)
  }

  /** The store holds `base`, then what was heard, then the line about the loss at `told`, if any. */
  predicate Stored(
      logs: seq<LogLine>, heard: seq<WorkerMessage>, base: seq<LogLine>, t: TaskId, told: Option<Cluster.Place>)
  {
    var have, want := LinesAbout(logs, t), base + LinesIn(heard, t);
    if told.None? then have == want
    else |have| == |want| + 1 && want <= have && IsLostLine(have[|want|], t, told.value)
  }

  function Told(conn: Conn, placed: Placed, t: TaskId, lost: bool): Option<Cluster.Place> {
    if t in placed && !conn.open && lost && !AwaitsLine(conn.cont, t) then Some(placed[t]) else None
  }

  predicate LogsAre(s: Sys, base: seq<LogLine>, c: nat, t: TaskId, lost: bool) {
    if c !in s.conns then LinesAbout(s.core.logs, t) == base
    else
      var conn := s.conns[c];
      && (!conn.open && AwaitsLine(conn.cont, t) ==> lost)
      && Stored(s.core.logs, HeardOn(conn), base, t, Told(conn, s.placed, t, lost))
  }

  // ---- One step ----

  lemma LinesAboutMore(logs: seq<LogLine>, line: LogLine, t: TaskId)
    ensures LinesAbout(logs + [line], t) == LinesAbout(logs, t) + if line.task == t then [line] else []
  {
    assert (logs + [line])[..|logs|] == logs;
  }

  lemma LinesInMore(heard: seq<WorkerMessage>, message: WorkerMessage, t: TaskId)
    ensures LinesIn(heard + [message], t)
            == LinesIn(heard, t) + if message.Log? && message.log.task == t then [message.log] else []
  {
    assert (heard + [message])[..|heard|] == heard;
  }

  lemma HeardOnMore(conn: Conn, conn': Conn)
    requires conn.read < |conn.sent| && conn'.sent == conn.sent && conn'.read == conn.read + 1
    ensures HeardOn(conn') == HeardOn(conn) + [conn.sent[conn.read]]
  {
  }

  lemma HeardOnSame(conn: Conn, conn': Conn)
    requires conn.read <= |conn.sent| && conn.sent <= conn'.sent && conn'.read == conn.read
    ensures HeardOn(conn') == HeardOn(conn)
  {
  }

  function LineOf(message: WorkerMessage, t: TaskId): seq<LogLine> {
    if message.Log? && message.log.task == t then [message.log] else []
  }

  lemma ReadAdds(core: Core, message: WorkerMessage, now: Protocol.Time, t: TaskId)
    ensures LinesAbout(Read(core, message, now).0.logs, t) == LinesAbout(core.logs, t) + LineOf(message, t)
  {
    if message.Log? { LinesAboutMore(core.logs, message.log, t); }
    hide LinesAbout;
  }

  /** The same line more on both sides. */
  lemma StoredMore(
      logs: seq<LogLine>, logs': seq<LogLine>, heard: seq<WorkerMessage>, message: WorkerMessage, base: seq<LogLine>,
      t: TaskId)
    requires Stored(logs, heard, base, t, None)
    requires LinesAbout(logs', t) == LinesAbout(logs, t) + LineOf(message, t)
    ensures Stored(logs', heard + [message], base, t, None)
  {
    LinesInMore(heard, message, t);
    hide LinesAbout, LinesIn;
    assert base + (LinesIn(heard, t) + LineOf(message, t)) == base + LinesIn(heard, t) + LineOf(message, t);
  }

  lemma StoredSame(
      logs: seq<LogLine>, logs': seq<LogLine>, heard: seq<WorkerMessage>, base: seq<LogLine>, t: TaskId,
      told: Option<Cluster.Place>)
    requires Stored(logs, heard, base, t, told) && LinesAbout(logs', t) == LinesAbout(logs, t)
    ensures Stored(logs', heard, base, t, told)
  {
    hide LinesAbout, LinesIn;
  }

  lemma ReadStores(s: Sys, d: nat, now: Protocol.Time, base: seq<LogLine>, c: nat, t: TaskId, lost: bool)
    requires CanRead(s, d) && LogsAre(s, base, c, t, lost) && OnlyHeardAt(DoRead(s, d, now), c, t)
    ensures LogsAre(DoRead(s, d, now), base, c, t, lost)
  {
    var conn, s' := s.conns[d], DoRead(s, d, now);
    var message := conn.sent[conn.read];
    ReadAdds(s.core, message, now, t);
    HeardOnMore(conn, s'.conns[d]);
    hide Read, HeardOn, Stored, LinesAbout, LinesIn;
    if d == c {
      StoredMore(s.core.logs, s'.core.logs, HeardOn(conn), message, base, t);
    } else {
      LinesInMore(HeardOn(conn), message, t);
      assert LinesIn(HeardOn(s'.conns[d]), t) == [];
      if c in s.conns {
        StoredSame(s.core.logs, s'.core.logs, HeardOn(s.conns[c]), base, t, Told(s.conns[c], s.placed, t, lost));
      }
    }
  }

  /** The line about the loss comes behind what was stored. */
  lemma StoredLoss(
      logs: seq<LogLine>, line: LogLine, heard: seq<WorkerMessage>, base: seq<LogLine>, t: TaskId, p: Cluster.Place)
    requires Stored(logs, heard, base, t, None) && IsLostLine(line, t, p)
    ensures Stored(logs + [line], heard, base, t, Some(p))
  {
    LinesAboutMore(logs, line, t);
    hide LinesAbout, LinesIn;
  }

  /** The section that stores the line about `t`. */
  lemma LossStores(s: Sys, c: nat, now: Protocol.Time, base: seq<LogLine>, t: TaskId)
    requires CanContinue(s, c) && LogsAre(s, base, c, t, true) && t in s.placed
    requires ContOk(s.placed, s.core.rows, c, s.conns[c])
    requires s.conns[c].cont.LogLost? && s.conns[c].cont.rest != [] && s.conns[c].cont.rest[0].0 == t
    ensures LogsAre(DoContinue(s, c, now), base, c, t, true)
  {
    var rest := s.conns[c].cont.rest;
    var line := LostLine(rest[0], s.conns[c].cont.node, now);
    var conn, s' := s.conns[c], DoContinue(s, c, now);
    assert Owns(s.placed, c, rest[0].1, t, conn.cont.node);
    assert Lists(rest, t) && !Lists(rest[1..], t);
    hide Stored, Lists, HeardOn, ContOk;
    assert Told(conn, s.placed, t, true) == None;
    StoredLoss(s.core.logs, line, HeardOn(conn), base, t, s.placed[t]);
    assert s'.core.logs == s.core.logs + [line];
    assert HeardOn(s'.conns[c]) == HeardOn(conn) by { SameHeard(conn, s'.conns[c]); }
  }

  lemma SameHeard(conn: Conn, conn': Conn)
    requires conn'.sent == conn.sent && conn'.read == conn.read
    ensures HeardOn(conn') == HeardOn(conn)
  {
  }

  /** Every other section stores no line about `t`, and leaves its line due as it was. */
  lemma OtherSection(core: Core, cont: Cont, now: Protocol.Time, t: TaskId)
    requires cont.LogLost? && cont.rest != [] ==> cont.rest[0].0 != t
    ensures LinesAbout(Advance(core, cont, now).0.logs, t) == LinesAbout(core.logs, t)
    ensures AwaitsLine(Advance(core, cont, now).1, t) <==> AwaitsLine(cont, t)
  {
    if cont.LogLost? && cont.rest != [] {
      ListsTail(cont.rest, t);
      LinesAboutMore(core.logs, LostLine(cont.rest[0], cont.node, now), t);
    }
    hide LinesAbout, Lists;
    if cont.LogLost? && cont.rest == [] { NothingListed(t); }
  }

  lemma NothingListed(t: TaskId)
    ensures !Lists([], t)
  {
  }

  lemma ContinueStores(s: Sys, d: nat, now: Protocol.Time, base: seq<LogLine>, c: nat, t: TaskId, lost: bool)
    requires CanContinue(s, d) && LogsAre(s, base, c, t, lost) && (t in s.placed ==> s.placed[t].conn == c)
    requires ContOk(s.placed, s.core.rows, d, s.conns[d])
    ensures LogsAre(DoContinue(s, d, now), base, c, t, lost)
  {
    var cont := s.conns[d].cont;
    if cont.LogLost? && cont.rest != [] && cont.rest[0].0 == t {
      assert Owns(s.placed, d, cont.rest[0].1, cont.rest[0].0, cont.node);
      assert Lists(cont.rest, t);
      hide Stored, ContOk, HeardOn;
      LossStores(s, c, now, base, t);
    } else {
      hide LogsAre, ContOk;
      OtherStores(s, d, now, base, c, t, lost);
    }
  }

  lemma OtherStores(s: Sys, d: nat, now: Protocol.Time, base: seq<LogLine>, c: nat, t: TaskId, lost: bool)
    requires CanContinue(s, d) && LogsAre(s, base, c, t, lost)
    requires var cont := s.conns[d].cont; !(cont.LogLost? && cont.rest != [] && cont.rest[0].0 == t)
    ensures LogsAre(DoContinue(s, d, now), base, c, t, lost)
  {
    OtherSection(s.core, s.conns[d].cont, now, t);
    hide Advance, HeardOn, LinesAbout, LinesIn, AwaitsLine, Stored;
    if c in s.conns {
      var s' := DoContinue(s, d, now);
      SameHeard(s.conns[c], s'.conns[c]);
      StoredSame(s.core.logs, s'.core.logs, HeardOn(s.conns[c]), base, t, Told(s.conns[c], s.placed, t, lost));
    }
  }

  /** A step that stores nothing, and reads and loses nothing on `c`. */
  lemma NothingStored(s: Sys, s': Sys, base: seq<LogLine>, c: nat, t: TaskId, lost: bool)
    requires LogsAre(s, base, c, t, lost) && s'.core.logs == s.core.logs && (c in s.conns ==> c in s'.conns)
    requires c in s.conns ==>
               && s.conns[c].read <= |s.conns[c].sent| && s'.conns[c].read == s.conns[c].read
               && s.conns[c].sent <= s'.conns[c].sent && s'.conns[c].open == s.conns[c].open
               && s'.conns[c].cont == s.conns[c].cont
               && Told(s.conns[c], s'.placed, t, lost) == Told(s.conns[c], s.placed, t, lost)
    requires c !in s.conns && c in s'.conns ==> s'.conns[c].open && s'.conns[c].read == 0
    ensures LogsAre(s', base, c, t, lost)
  {
    if c in s.conns {
      HeardOnSame(s.conns[c], s'.conns[c]);
      hide HeardOn, Stored;
      assert Told(s'.conns[c], s'.placed, t, lost) == Told(s.conns[c], s.placed, t, lost);
    } else if c in s'.conns {
      assert HeardOn(s'.conns[c]) == [];
      assert base + LinesIn([], t) == base;
    }
  }

  /** The connection of `t` is lost: `t` is still due a line exactly if it was indexed there. */
  lemma LeaveStores(
      s: Sys, c: nat, order: seq<(TaskId, JobId)>, base: seq<LogLine>, t: TaskId, lost: bool)
    requires CanDisconnect(s, c, order) && LogsAre(s, base, c, t, lost)
    ensures LogsAre(DoDisconnect(s, c, order), base, c, t, Lists(order, t))
  {
    hide LinesAbout, LinesIn, Lists, Enumerates;
  }

  /** Whether `t` is due a line about a loss on `c`, after the step. */
  function LostBy(step: Step, c: nat, t: TaskId, lost: bool): bool {
    if step.Wire? && step.wire.Disconnect? && step.wire.conn == c then Lists(step.wire.order, t) else lost
  }

  lemma WireStores(s: Sys, step: WireStep, s': Sys, base: seq<LogLine>, c: nat, t: TaskId, lost: bool)
    requires Tracked(s) && ReadsOk(s) && NextWire(s, step, s') && LogsAre(s, base, c, t, lost) && OnlyHeardAt(s', c, t)
    requires t in s.placed ==> s.placed[t].conn == c
    ensures LogsAre(s', base, c, t, LostBy(Wire(step), c, t, lost))
  {
    hide LogsAre, Tracked, OnlyHeardAt, ContOk, Enumerates;
    match step
    case ReadMessage(d, now) => ReadStores(s, d, now, base, c, t, lost);
    case Continue(d, now) =>
      AboutLink(s, d);
      ContinueStores(s, d, now, base, c, t, lost);
    case Disconnect(d, order) =>
      if d == c {
        LeaveStores(s, c, order, base, t, lost);
      } else {
        NothingStored(s, s', base, c, t, lost);
      }
    case _ => NothingStored(s, s', base, c, t, lost);
  }

  lemma WorkStores(s: Sys, d: nat, step: WorkStep, s': Sys, base: seq<LogLine>, c: nat, t: TaskId, lost: bool)
    requires ReadsOk(s) && NextWork(s, d, step, s') && LogsAre(s, base, c, t, lost)
    ensures LogsAre(s', base, c, t, lost)
  {
    hide LogsAre, Told;
    NothingStored(s, s', base, c, t, lost);
  }

  lemma ClientStores(s: Sys, step: ClientStep, s': Sys, base: seq<LogLine>, c: nat, t: TaskId, lost: bool)
    requires ReadsOk(s) && NextClient(s, step, s') && LogsAre(s, base, c, t, lost)
    ensures LogsAre(s', base, c, t, lost)
  {
    hide LogsAre, Told;
    NothingStored(s, s', base, c, t, lost);
  }

  /** A task that is placed now is placed on an open connection. */
  lemma PlacedOpen(s: Sys, step: Step, s': Sys, t: TaskId)
    requires Tracked(s) && step.Dispatch? && Next(s, step, s') && t in s'.placed && t !in s.placed
    ensures s'.placed[t].conn in s.conns && s.conns[s'.placed[t].conn].open
  {
    hide Tracked, EchoedOnly, ContOk, InboxOk, TasksOk;
    var Dispatch(r, request, job, selected, upto, ids, clock) := step;
    var p := PlaceAll(s.core, request, job, selected[..upto], ids, clock);
    PlacementOf(s, request, job, selected[..upto], ids, clock);
    PlacedGrow(s, r, job, p);
    hide PlaceAll, Places, FreshIds;
    var i :| 0 <= i < |p.assignments| && p.assignments[i].task == t;
    assert DispatchOk(s'.placed, r, job, p.assignments[i], p.dispatch[i], i);
    assert NewTask(s, job, p, p.assignments[i], p.dispatch[i]);
    TrackedParts(s);
    assert NodeOk(s.placed, s.conns, p.assignments[i].node, s.core.nodes[p.assignments[i].node]);
  }

  lemma DispatchStores(s: Sys, step: Step, s': Sys, base: seq<LogLine>, c: nat, t: TaskId, lost: bool)
    requires Tracked(s) && ReadsOk(s) && step.Dispatch? && Next(s, step, s') && LogsAre(s, base, c, t, lost)
    requires t in s'.placed ==> s'.placed[t].conn == c
    ensures LogsAre(s', base, c, t, lost)
  {
    var Dispatch(r, request, job, selected, upto, ids, clock) := step;
    PlaceAligned(s.core, request, job, selected[..upto], ids, clock);
    if t in s.placed { SamePlace(s, step, s', t); }
    if t in s'.placed && t !in s.placed { PlacedOpen(s, step, s', t); }
    hide LogsAre, PlaceAll, Places, Tracked, AwaitsLine;
    NothingStored(s, s', base, c, t, lost);
  }

  lemma StepStores(s: Sys, step: Step, s': Sys, base: seq<LogLine>, c: nat, t: TaskId, lost: bool)
    requires Tracked(s) && ReadsOk(s) && Next(s, step, s') && LogsAre(s, base, c, t, lost) && OnlyHeardAt(s', c, t)
    requires t in s'.placed ==> s'.placed[t].conn == c
    ensures LogsAre(s', base, c, t, LostBy(step, c, t, lost))
  {
    if t in s.placed { SamePlace(s, step, s', t); }
    hide Tracked, LogsAre, OnlyHeardAt, Lists;
    match step
    case Wire(wire) => WireStores(s, wire, s', base, c, t, lost);
    case Work(d, work) => WorkStores(s, d, work, s', base, c, t, lost);
    case Client(call) => ClientStores(s, call, s', base, c, t, lost);
    case Dispatch(_, _, _, _, _, _, _) => DispatchStores(s, step, s', base, c, t, lost);
  }

  // ---- Whole runs ----

  lemma {:induction false} LinesInPrefix(heard: seq<WorkerMessage>, more: seq<WorkerMessage>, t: TaskId)
    requires heard <= more && LinesIn(more, t) == []
    ensures LinesIn(heard, t) == []
    decreases |more|
  {
    if |heard| < |more| {
      var before := more[..|more| - 1];
      assert heard <= before;
      assert LinesIn(more, t) == LinesIn(before, t) + LineOf(more[|more| - 1], t);
      LinesInPrefix(heard, before, t);
    } else {
      assert heard == more;
    }
  }

  predicate HearsMore(conn: Conn, conn': Conn) {
    conn.sent <= conn'.sent && conn.read <= conn'.read && (conn'.open ==> conn.open)
  }

  lemma WireHears(s: Sys, step: WireStep, s': Sys, d: nat)
    requires NextWire(s, step, s') && d in s.conns
    ensures d in s'.conns && HearsMore(s.conns[d], s'.conns[d])
    ensures s.conns[d].open && !s'.conns[d].open ==> step.Disconnect? && step.conn == d
  {
    hide Read, Advance, Enumerates;
  }

  lemma WorkHears(s: Sys, c: nat, step: WorkStep, s': Sys, d: nat)
    requires NextWork(s, c, step, s') && d in s.conns
    ensures d in s'.conns && HearsMore(s.conns[d], s'.conns[d]) && s'.conns[d].open == s.conns[d].open
  {
  }

  lemma ClientHears(s: Sys, step: ClientStep, s': Sys, d: nat)
    requires NextClient(s, step, s') && d in s.conns
    ensures d in s'.conns && HearsMore(s.conns[d], s'.conns[d]) && s'.conns[d].open == s.conns[d].open
  {
  }

  lemma StepHears(s: Sys, step: Step, s': Sys, d: nat)
    requires Next(s, step, s') && d in s.conns
    ensures d in s'.conns && HearsMore(s.conns[d], s'.conns[d])
    ensures s.conns[d].open && !s'.conns[d].open ==>
              step.Wire? && step.wire.Disconnect? && step.wire.conn == d
  {
    hide NextWire, NextWork, NextClient;
    match step
    case Wire(wire) => WireHears(s, wire, s', d);
    case Work(c, work) => WorkHears(s, c, work, s', d);
    case Client(call) => ClientHears(s, call, s', d);
    case Dispatch(_, _, _, _, _, _, _) => hide PlaceAll, Places;
  }

  lemma HeardElsewhere(s: Sys, step: Step, s': Sys, c: nat, t: TaskId)
    requires Next(s, step, s') && ReadsOk(s) && ReadsOk(s') && OnlyHeardAt(s', c, t)
    ensures OnlyHeardAt(s, c, t)
  {
    hide Next;
    forall d | d in s.conns && d != c ensures LinesIn(HeardOn(s.conns[d]), t) == [] {
      StepHears(s, step, s', d);
      LinesInPrefix(HeardOn(s.conns[d]), HeardOn(s'.conns[d]), t);
    }
  }

  /** Step `k` lost the connection of `t`, whose row was unfinished then or not. */
  ghost predicate LossAt(states: seq<Sys>, steps: seq<Step>, k: nat, i: nat, c: nat, t: TaskId, lost: bool) {
    && k < i <= |steps| && |states| == |steps| + 1
    && steps[k].Wire? && steps[k].wire.Disconnect? && steps[k].wire.conn == c
    && t in states[k].core.rows && (lost <==> Unfinished(states[k].core.rows[t].status))
  }

  /** What is indexed when its connection is lost is what was unfinished. */
  lemma LostIfUnfinished(s: Sys, c: nat, order: seq<(TaskId, JobId)>, t: TaskId)
    requires Tracked(s) && CanDisconnect(s, c, order) && t in s.placed && s.placed[t].conn == c
    ensures t in s.core.rows && (Lists(order, t) <==> Unfinished(s.core.rows[t].status))
  {
    hide Tracked, EchoedOnly, InboxOk, TasksOk, ContOk, OnlyAt;
    AboutLocated(s, t);
    AboutLink(s, c);
    assert AtHome(s.core.nodes, s.placed[t], t) <==> t in RunningOn(s.core, s.conns[c].node);
  }

  lemma PlacedBefore(s: Sys, step: Step, s': Sys, t: TaskId)
    requires Next(s, step, s') && !step.Dispatch?
    ensures s'.placed == s.placed
  {
    hide NextWire, NextWork, NextClient;
    match step
    case Wire(wire) => WireKeepsPlaces(s, wire, s');
    case Work(c, work) => WorkKeepsPlaces(s, c, work, s');
    case Client(call) => ClientKeepsPlaces(s, call, s');
  }

  lemma OnceLost(s: Sys, step: Step, s': Sys, c: nat, t: TaskId)
    requires Tracked(s) && Next(s, step, s') && t in s'.placed && s'.placed[t].conn == c
    requires c in s'.conns && !s'.conns[c].open
    requires !(step.Wire? && step.wire.Disconnect? && step.wire.conn == c)
    ensures t in s.placed && c in s.conns && !s.conns[c].open
  {
    hide Tracked, HearsMore;
    if t !in s.placed {
      if step.Dispatch? { PlacedOpen(s, step, s', t); } else { PlacedBefore(s, step, s', t); }
    } else {
      SamePlace(s, step, s', t);
      AboutLocated(s, t);
    }
    hide Next;
    if c in s.conns { StepHears(s, step, s', c); }
  }

  /** What is known after `i` steps; `lost` is whether `t` was unfinished when its connection was lost. */
  ghost predicate StoredAfter(states: seq<Sys>, steps: seq<Step>, i: nat, c: nat, t: TaskId, lost: bool) {
    && i <= |steps| && |states| == |steps| + 1
    && LogsAre(states[i], LinesAbout(states[0].core.logs, t), c, t, lost)
    && (t in states[i].placed && c in states[i].conns && !states[i].conns[c].open ==>
          exists k: nat :: LossAt(states, steps, k, i, c, t, lost))
  }

  lemma StoredNext(states: seq<Sys>, steps: seq<Step>, n: nat, i: nat, c: nat, t: TaskId, before: bool, lost: bool)
    requires StoredAfter(states, steps, n, c, t, before) && n < |steps| && i == n + 1
    requires Next(states[n], steps[n], states[i]) && Tracked(states[n]) && ReadsOk(states[n])
    requires OnlyHeardAt(states[i], c, t) && (t in states[i].placed ==> states[i].placed[t].conn == c)
    requires lost == LostBy(steps[n], c, t, before)
    ensures StoredAfter(states, steps, i, c, t, lost)
  {
    hide Next, Tracked, ReadsOk, OnlyHeardAt, LogsAre, Lists, LossAt, LinesAbout;
    StepStores(states[n], steps[n], states[i], LinesAbout(states[0].core.logs, t), c, t, before);
    if t in states[i].placed && c in states[i].conns && !states[i].conns[c].open {
      LossSoFar(states, steps, n, i, c, t, before, lost);
    }
  }

  /** Where the connection of `t` was lost, one step further on. */
  lemma LossSoFar(
      states: seq<Sys>, steps: seq<Step>, n: nat, i: nat, c: nat, t: TaskId, before: bool, lost: bool)
    requires |states| == |steps| + 1 && n < |steps| && i == n + 1
    requires Tracked(states[n]) && Next(states[n], steps[n], states[i])
    requires t in states[i].placed && states[i].placed[t].conn == c
    requires c in states[i].conns && !states[i].conns[c].open
    requires t in states[n].placed && c in states[n].conns && !states[n].conns[c].open ==>
               exists k: nat :: LossAt(states, steps, k, n, c, t, before)
    requires lost == LostBy(steps[n], c, t, before)
    ensures exists k: nat :: LossAt(states, steps, k, i, c, t, lost)
  {
    hide Next, Tracked, Lists;
    var s, step, s' := states[n], steps[n], states[i];
    if step.Wire? && step.wire.Disconnect? && step.wire.conn == c {
      WhoIsLost(s, step, s', c, t);
      assert LossAt(states, steps, n, i, c, t, lost);
    } else {
      OnceLost(s, step, s', c, t);
      var k: nat :| LossAt(states, steps, k, n, c, t, before);
      assert LossAt(states, steps, k, i, c, t, lost);
    }
  }

  lemma {:induction false} RunStores(states: seq<Sys>, steps: seq<Step>, i: nat, c: nat, t: TaskId) returns (lost: bool)
    requires EchoingRun(states, steps) && i <= |steps|
    requires |states| == |steps| + 1 && OnlyHeardAt(states[i], c, t)
    requires t in states[i].placed ==> states[i].placed[t].conn == c
    ensures StoredAfter(states, steps, i, c, t, lost)
  {
    hide EchoingRun, Next, Tracked, ReadsOk, AllOnTrack, OnlyHeardAt, LinesAbout;
    EchoingStep(states, steps, i);
    if i == 0 {
      NothingAtFirst(states, steps);
      lost := false;
    } else {
      hide StoredAfter;
      var n := i - 1;
      TrackHolds(states, steps, n);
      TrackHolds(states, steps, i);
      HeardElsewhere(states[n], steps[n], states[i], c, t);
      if t in states[n].placed { SamePlace(states[n], steps[n], states[i], t); }
      var before := RunStores(states, steps, n, c, t);
      lost := LostBy(steps[n], c, t, before);
      StoredNext(states, steps, n, i, c, t, before, lost);
    }
  }

  lemma WhoIsLost(s: Sys, step: Step, s': Sys, c: nat, t: TaskId)
    requires Tracked(s) && Next(s, step, s') && t in s'.placed && s'.placed[t].conn == c
    requires step.Wire? && step.wire.Disconnect? && step.wire.conn == c
    ensures t in s.core.rows && (Lists(step.wire.order, t) <==> Unfinished(s.core.rows[t].status))
  {
    PlacedBefore(s, step, s', t);
    hide Tracked, CanDisconnect;
    LostIfUnfinished(s, c, step.wire.order, t);
  }

  lemma NothingAtFirst(states: seq<Sys>, steps: seq<Step>)
    requires EchoingRun(states, steps)
    ensures states[0].conns == map[] && states[0].placed == map[]
  {
    hide Next, Echoing;
  }

  /** `have` is `want` with the line about the loss behind it, when that was told. */
  predicate WithLoss(have: seq<LogLine>, want: seq<LogLine>, told: bool, t: TaskId, p: Cluster.Place) {
    if told then |have| == |want| + 1 && want <= have && IsLostLine(have[|want|], t, p) else have == want
  }

  /** In every concurrent run, failed kills at any time, and for a task of which no other connection had lines read: the
      store holds exactly the lines that its connection has read, each once and in order. Behind them stands one line
      saying that the worker disconnected exactly if the connection was lost while the row was unfinished, as soon as
      the handler has stored it. */
  lemma StoredLinesOfTask(states: seq<Sys>, steps: seq<Step>, i: nat, t: TaskId)
    requires EchoingRun(states, steps) && i <= |steps|
    requires t in states[i].placed && OnlyHeardAt(states[i], states[i].placed[t].conn, t)
    ensures |states| == |steps| + 1 && states[i].placed[t].conn in states[i].conns
    ensures var s, p := states[i], states[i].placed[t];
      var conn := s.conns[p.conn];
      && conn.read <= |conn.sent|
      && var have := LinesAbout(s.core.logs, t);
         var want := LinesAbout(states[0].core.logs, t) + LinesIn(conn.sent[..conn.read], t);
         && (conn.open ==> have == want)
         && (!conn.open ==>
               exists k: nat, lost: bool ::
                 && LossAt(states, steps, k, i, p.conn, t, lost)
                 && WithLoss(have, want, lost && !AwaitsLine(conn.cont, t), t, p))
  {
    TrackHolds(states, steps, i);
    EchoingStep(states, steps, i);
    AboutLocated(states[i], t);
    var c := states[i].placed[t].conn;
    var lost := RunStores(states, steps, i, c, t);
    hide EchoingRun, Tracked, AllOnTrack, LinesAbout, LinesIn, AwaitsLine, IsLostLine, Located, OnlyHeardAt;
    if !states[i].conns[c].open {
      var k: nat :| LossAt(states, steps, k, i, c, t, lost);
    }
  }

  lemma {:induction false} OwnLinesOnly(placed: Placed, d: nat, heard: seq<WorkerMessage>, t: TaskId)
    requires SentOk(placed, d, heard) && t in placed && placed[t].conn != d
    ensures LinesIn(heard, t) == []
  {
    if heard != [] {
      assert MessageOk(placed, d, heard[|heard| - 1]);
      OwnLinesOnly(placed, d, heard[..|heard| - 1], t);
    }
  }

  /** In an honest run no other connection ever has lines of a task, so this holds of every task. */
  lemma HonestLinesOfTask(states: seq<Sys>, steps: seq<Step>, i: nat, t: TaskId)
    requires HonestRun(states, steps) && i <= |steps| && t in states[i].placed
    ensures EchoingRun(states, steps) && OnlyHeardAt(states[i], states[i].placed[t].conn, t)
  {
    hide HonestRun, Life, EchoingRun, LinesIn, HeardOn;
    HonestRunEchoes(states, steps);
    LifeHolds(states, steps, i);
    EchoingStep(states, steps, i);
    var s := states[i];
    forall d | d in s.conns && d != s.placed[t].conn ensures LinesIn(HeardOn(s.conns[d]), t) == [] {
      HeardIsOwn(s, d);
      OwnLinesOnly(s.placed, d, HeardOn(s.conns[d]), t);
    }
  }

  lemma HeardIsOwn(s: Sys, d: nat)
    requires Life(s) && d in s.conns
    ensures SentOk(s.placed, d, HeardOn(s.conns[d]))
  {
    AboutConn(s, d);
    hide Life, ContOk, InboxOk, TasksOk, MessageOk;
  }
}
