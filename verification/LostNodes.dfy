/** What losing a node comes to, whatever order its tasks are walked in. */
module LostNodes {
  import opened Protocol
  import opened JobStore
  import opened CoordinatorCore
  import opened WakeUp
  import opened Lifecycle
  import opened Coordinator

  /** `t` was ended once more: its row failed, without an exit code, and one more exit of it in the log. */
  ghost predicate EndedOnce(before: Core, after: Core, t: TaskId, clock: nat -> Protocol.Time) {
    && t in after.rows && after.rows[t].status.Failed? && after.rows[t].exitCode.None?
    && (exists r: nat :: after.rows[t].exited == Some(clock(r)))
    && (t in before.rows ==> after.rows[t].job == before.rows[t].job && after.rows[t].created == before.rows[t].created)
    && |Exits(after.events, t)| == |Exits(before.events, t)| + 1
  }

  predicate LeftAlone(before: Core, after: Core, t: TaskId) {
    && (t in after.rows <==> t in before.rows)
    && (t in before.rows ==> after.rows[t] == before.rows[t])
    && Exits(after.events, t) == Exits(before.events, t)
  }

  lemma OneLost(core: Core, node: NodeId, lost: (TaskId, JobId), clock: nat -> Protocol.Time, r: nat, t: TaskId)
    ensures var line, exit := LostLine(lost, node, clock(r)), FailedExit(lost.1, lost.0, node, clock(r));
      var core' := core.(rows := RowExited(core.rows, exit), logs := core.logs + [line],
                         events := core.events + [LogEvent(line)] + [ExitedEvent(exit)]);
      if t == lost.0 then EndedOnce(core, core', t, clock) else LeftAlone(core, core', t)
  {
    var line, exit := LostLine(lost, node, clock(r)), FailedExit(lost.1, lost.0, node, clock(r));
    ExitsOfMore(core.events, LogEvent(line), t);
    ExitsOfMore(core.events + [LogEvent(line)], ExitedEvent(exit), t);
  }

  lemma {:induction false} RestLost(
      core: Core, node: NodeId, rest: seq<(TaskId, JobId)>, clock: nat -> Protocol.Time, t: TaskId)
    requires forall i, j :: 0 <= i < j < |rest| ==> rest[i].0 != rest[j].0
    ensures var core' := FinishBy(core, LogLost(node, rest), clock);
      && core'.nodes == core.nodes && core'.leases == core.leases
      && (if Lists(rest, t) then EndedOnce(core, core', t, clock) else LeftAlone(core, core', t))
    decreases |rest|
  {
    if rest == [] {
      NothingLost(core, node, clock);
    } else {
      var now := clock(Rank(LogLost(node, rest)));
      var line, exit := LostLine(rest[0], node, now), FailedExit(rest[0].1, rest[0].0, node, now);
      var next := core.(rows := RowExited(core.rows, exit), logs := core.logs + [line],
                        events := core.events + [LogEvent(line)] + [ExitedEvent(exit)]);
      FinishLostTask(core, node, rest, clock);
      OneLost(core, node, rest[0], clock, Rank(LogLost(node, rest)), t);
      RestLost(next, node, rest[1..], clock, t);
      hide FinishBy, RowExited, Exits, FailedExit, LostLine;
      ListsTail(rest, t);
    }
  }

  /** Losing a node takes it out of the index and ends exactly the tasks it was running, each once; every other task,
      node and lease is left alone. */
  lemma LostNodeEndsItsTasks(
      core: Core, node: NodeId, order: seq<(TaskId, JobId)>, clock: nat -> Protocol.Time, t: TaskId)
    requires Enumerates(order, RunningOn(core, node))
    ensures var core' := FinishBy(TakeLost(core, node, order).0, TakeLost(core, node, order).1, clock);
      && core'.nodes == core.nodes - {node} && core'.leases == core.leases
      && (if t in RunningOn(core, node) then EndedOnce(core, core', t, clock) else LeftAlone(core, core', t))
  {
    RestLost(core.(nodes := core.nodes - {node}), node, order, clock, t);
    if t in RunningOn(core, node) {
      assert Lists(order, t);
    }
  }

  /** Line and exit of one lost task, with one reading of the clock. */
  predicate Tells(line: LogLine, first: CoordinatorEvent, second: CoordinatorEvent, lost: (TaskId, JobId), node: NodeId)
  {
    && line == LogLine(lost.1, lost.0, node, System, line.timestamp, "worker disconnected", 0)
    && first == LogEvent(line)
    && second == ExitedEvent(TaskExited(lost.1, lost.0, node, None, false, line.timestamp))
  }

  /** One line and two events more for each task of `rest`, in its order. */
  predicate ToldOf(before: Core, after: Core, node: NodeId, rest: seq<(TaskId, JobId)>) {
    && |after.logs| == |before.logs| + |rest| && before.logs <= after.logs
    && |after.events| == |before.events| + 2 * |rest| && before.events <= after.events
    && forall i :: 0 <= i < |rest| ==>
         Tells(after.logs[|before.logs| + i], after.events[|before.events| + 2 * i],
               after.events[|before.events| + 2 * i + 1], rest[i], node)
  }

  lemma ToldOneMore(
      before: Core, next: Core, after: Core, node: NodeId, rest: seq<(TaskId, JobId)>, line: LogLine, exit: TaskExited)
    requires rest != [] && ToldOf(next, after, node, rest[1..])
    requires next.logs == before.logs + [line]
    requires next.events == before.events + [LogEvent(line)] + [ExitedEvent(exit)]
    requires Tells(line, LogEvent(line), ExitedEvent(exit), rest[0], node)
    ensures ToldOf(before, after, node, rest)
  {
    hide Tells;
    assert after.logs[|before.logs|] == next.logs[|before.logs|];
    assert after.events[|before.events|] == next.events[|before.events|];
    assert after.events[|before.events| + 1] == next.events[|before.events| + 1];
    forall i | 0 <= i < |rest|
      ensures Tells(after.logs[|before.logs| + i], after.events[|before.events| + 2 * i],
                    after.events[|before.events| + 2 * i + 1], rest[i], node)
    {
      if i > 0 {
        assert rest[1..][i - 1] == rest[i];
        assert |next.logs| + (i - 1) == |before.logs| + i;
        assert |next.events| + 2 * (i - 1) == |before.events| + 2 * i;
      }
    }
  }

  lemma {:induction false} RestTold(
      core: Core, node: NodeId, rest: seq<(TaskId, JobId)>, clock: nat -> Protocol.Time)
    ensures ToldOf(core, FinishBy(core, LogLost(node, rest), clock), node, rest)
    decreases |rest|
  {
    if rest == [] {
      NothingLost(core, node, clock);
    } else {
      var now := clock(Rank(LogLost(node, rest)));
      var line, exit := LostLine(rest[0], node, now), FailedExit(rest[0].1, rest[0].0, node, now);
      var next := core.(rows := RowExited(core.rows, exit), logs := core.logs + [line],
                        events := core.events + [LogEvent(line)] + [ExitedEvent(exit)]);
      FinishLostTask(core, node, rest, clock);
      RestTold(next, node, rest[1..], clock);
      hide FinishBy, RowExited, ToldOf;
      ToldOneMore(core, next, FinishBy(next, LogLost(node, rest[1..]), clock), node, rest, line, exit);
    }
  }

  /** Losing a node stores one line about each of its tasks and broadcasts that line and then the task's exit, task by
      task in the order walked. */
  lemma LostNodeTells(core: Core, node: NodeId, order: seq<(TaskId, JobId)>, clock: nat -> Protocol.Time)
    ensures var after := FinishBy(TakeLost(core, node, order).0, TakeLost(core, node, order).1, clock);
      ToldOf(core, after, node, order)
  {
    RestTold(core.(nodes := core.nodes - {node}), node, order, clock);
    hide FinishBy;
  }
}
