/** What reports of failed kills do to the lifecycle, and exactly when they do no harm.

    A worker answers a kill it cannot carry out with an error for the task, and the coordinator takes any error for an
    indexed task as its end. The coordinator's handlers run here one after the other. */
module LateKills {
  import opened Protocol
  import opened JobStore
  import opened CoordinatorCore
  import opened Lifecycle

  function HandleAll(core: Core, messages: seq<WorkerMessage>, clock: seq<Protocol.Time>): Core
    requires |messages| <= |clock|
  {
    if messages == [] then core
    else
      var last := |messages| - 1;
      var (core', cont) := Read(HandleAll(core, messages[..last], clock), messages[last], clock[last]);
      Finish(core', cont, clock[last])
  }

  /** A message about `t` names node `n`. */
  predicate Names(message: WorkerMessage, t: TaskId, n: NodeId) {
    match message
    case Started(e) => e.task == t ==> e.node == n
    case Exited(e) => e.task == t ==> e.node == n
    case Error(e) => e.task == Some(t) ==> e.node == Some(n)
    case _ => true
  }

  predicate From(messages: seq<WorkerMessage>, t: TaskId, n: NodeId) {
    forall i :: 0 <= i < |messages| ==> Names(messages[i], t, n)
  }

  /** What the marks of a task that starts out indexed come to: whether it is still indexed, and how many exits were
      broadcast. */
  function Tally(v: seq<Mark>): (bool, nat) {
    if v == [] then (true, 0)
    else
      var (indexed, exits) := Tally(v[..|v| - 1]);
      match v[|v| - 1]
      case Begun => (true, exits)
      case Ended => (false, exits + 1)
      case Failure => if indexed then (false, exits + 1) else (false, exits)
  }

  lemma HandleOne(core: Core, message: WorkerMessage, now: Protocol.Time, t: TaskId, n: NodeId)
    requires n in core.nodes && Names(message, t, n)
    ensures var (read, cont) := Read(core, message, now);
      var core' := Finish(read, cont, now);
      var indexed := t in core.nodes[n].running;
      && n in core'.nodes
      && (t in core'.nodes[n].running <==>
            MarkOf(message, t) == [Begun] || (MarkOf(message, t) == [] && indexed))
      && |Exits(core'.events, t)| == |Exits(core.events, t)|
           + if MarkOf(message, t) == [Ended] || (MarkOf(message, t) == [Failure] && indexed) then 1 else 0
  {
    hide Finish, Exits;
    var (core1, cont1) := Read(core, message, now);
    match message
    case Heartbeat(_, _) => NothingLeft(core1, now);
    case Log(l) =>
      FinishLast(core1, LogEvent(l), now);
      ExitsOfMore(core1.events, LogEvent(l), t);
    case Started(e) =>
      FinishStarted(core1, e, now);
      ExitsOfMore(core1.events, StartedEvent(e), t);
    case Exited(e) =>
      FinishExited(core1, e, now);
      ExitsOfMore(core1.events, ExitedEvent(e), t);
    case Error(error) =>
      if cont1.RecordExit? {
        FinishError(core1, cont1.exit, error, now);
        ExitsOfMore(core1.events, ExitedEvent(cont1.exit), t);
        ExitsOfMore(core1.events + [ExitedEvent(cont1.exit)], ErrorEvent(error), t);
        assert core1.events + [ExitedEvent(cont1.exit), ErrorEvent(error)]
            == core1.events + [ExitedEvent(cont1.exit)] + [ErrorEvent(error)];
      } else {
        FinishLast(core1, ErrorEvent(error), now);
        ExitsOfMore(core1.events, ErrorEvent(error), t);
      }
  }

  lemma NothingLeft(core: Core, now: Protocol.Time)
    ensures Finish(core, Idle, now) == core
  {
  }

  /** Whatever arrives, in whatever order, the marks alone decide how often an exit of `t` is broadcast. */
  lemma {:induction false} HandleAllTally(
      core: Core, messages: seq<WorkerMessage>, clock: seq<Protocol.Time>, t: TaskId, n: NodeId)
    requires |messages| <= |clock| && From(messages, t, n)
    requires n in core.nodes && t in core.nodes[n].running
    ensures var core', (indexed, exits) := HandleAll(core, messages, clock), Tally(Marks(messages, t));
      && n in core'.nodes && (t in core'.nodes[n].running <==> indexed)
      && |Exits(core'.events, t)| == |Exits(core.events, t)| + exits
  {
    hide Exits, Finish, Read, Names, Tally, Marks;
    if messages == [] {
      assert Tally(Marks([], t)) == (true, 0) by { NothingSaid(t); }
    } else {
      var last := |messages| - 1;
      HandleAllTally(core, messages[..last], clock, t, n);
      HandleOne(HandleAll(core, messages[..last], clock), messages[last], clock[last], t, n);
      MarksOfNext(messages, last, t);
      assert messages[..last + 1] == messages;
      TallyOfMore(Marks(messages[..last], t), MarkOf(messages[last], t));
    }
  }

  lemma NothingSaid(t: TaskId)
    ensures Tally(Marks([], t)) == (true, 0)
  {
  }

  lemma TallyOfMore(v: seq<Mark>, more: seq<Mark>)
    requires |more| <= 1
    ensures var (indexed, exits) := Tally(v);
      Tally(v + more) ==
        if more == [] then (indexed, exits)
        else if more == [Begun] then (true, exits)
        else (false, if more == [Ended] || indexed then exits + 1 else exits)
  {
    if more == [] {
      assert v + more == v;
    } else {
      assert (v + more)[..|v|] == v;
    }
  }

  function WithoutFailures(v: seq<Mark>): seq<Mark> {
    if v == [] then []
    else
      var last := v[|v| - 1];
      WithoutFailures(v[..|v| - 1]) + if last.Failure? then [] else [last]
  }

  lemma {:induction false} TallyOfFailures(v: seq<Mark>)
    requires WithoutFailures(v) == []
    ensures forall i :: 0 <= i < |v| ==> v[i] == Failure
    ensures Tally(v) == (v == [], if v == [] then 0 else 1)
  {
    if v != [] {
      TallyOfFailures(v[..|v| - 1]);
    }
  }

  /** Begun once: one exit for the reports before it, one for those after it. */
  lemma {:induction false} TallyOfBegun(v: seq<Mark>)
    requires WithoutFailures(v) == [Begun]
    ensures v != []
    ensures var early, late := v[0] != Begun, v[|v| - 1] != Begun;
      && Tally(v) == (!late, (if early then 1 else 0) + (if late then 1 else 0))
      && (!early && !late ==> v == [Begun])
  {
    if v != [] {
      var before := v[..|v| - 1];
      if v[|v| - 1].Failure? {
        TallyOfBegun(before);
      } else {
        assert WithoutFailures(v)[|WithoutFailures(before)|] == v[|v| - 1];
        TallyOfFailures(before);
      }
    }
  }

  lemma {:induction false} TallyOfRun(v: seq<Mark>)
    requires WithoutFailures(v) == [Begun, Ended]
    ensures !Tally(v).0 && Tally(v).1 >= 1 && |v| >= 2
    ensures Tally(v).1 == 1 <==> Complete(v)
  {
    if v != [] {
      var before := v[..|v| - 1];
      if v[|v| - 1].Failure? {
        TallyOfRun(before);
        assert forall i :: 0 <= i < |before| ==> before[i] == v[i];
      } else {
        var w := WithoutFailures(before);
        assert w == WithoutFailures(v)[..|w|] && WithoutFailures(v)[|w|] == v[|v| - 1];
        TallyOfBegun(before);
        assert v == before + [Ended];
      }
    }
  }

  /** A task that started and exited is reported exited once, exactly when every report of a failed kill came after its
      exit: for any messages, about any tasks, around those of `t`. */
  lemma FailedKillsAreHarmlessIff(
      core: Core, messages: seq<WorkerMessage>, clock: seq<Protocol.Time>, t: TaskId, n: NodeId)
    requires |messages| <= |clock| && From(messages, t, n)
    requires n in core.nodes && t in core.nodes[n].running && Exits(core.events, t) == []
    requires WithoutFailures(Marks(messages, t)) == [Begun, Ended]
    ensures |Exits(HandleAll(core, messages, clock).events, t)| == 1 <==> Complete(Marks(messages, t))
  {
    HandleAllTally(core, messages, clock, t, n);
    TallyOfRun(Marks(messages, t));
  }

  // ---- The row ----

  /** The status of a row that starts out queued and indexed, message by message. */
  function StatusAfter(messages: seq<WorkerMessage>, t: TaskId): Status {
    if messages == [] then Queued
    else
      var last := |messages| - 1;
      var before := StatusAfter(messages[..last], t);
      var mark := MarkOf(messages[last], t);
      if mark == [Begun] then Running
      else if mark == [Ended] then StatusOf(messages[last].exited)
      else if mark == [Failure] && Tally(Marks(messages[..last], t)).0 then Failed
      else before
  }

  lemma HandleRow(core: Core, message: WorkerMessage, now: Protocol.Time, t: TaskId, n: NodeId)
    requires n in core.nodes && Names(message, t, n) && t in core.rows
    ensures var (read, cont) := Read(core, message, now);
      var rows' := Finish(read, cont, now).rows;
      && t in rows'
      && rows'[t].status ==
           if MarkOf(message, t) == [Begun] then Running
           else if MarkOf(message, t) == [Ended] then StatusOf(message.exited)
           else if MarkOf(message, t) == [Failure] && t in core.nodes[n].running then Failed
           else core.rows[t].status
  {
    hide Finish;
    var (core1, cont1) := Read(core, message, now);
    match message
    case Heartbeat(_, _) => NothingLeft(core1, now);
    case Log(l) => FinishLast(core1, LogEvent(l), now);
    case Started(e) => FinishStarted(core1, e, now);
    case Exited(e) => FinishExited(core1, e, now);
    case Error(error) =>
      if cont1.RecordExit? {
        FinishError(core1, cont1.exit, error, now);
      } else {
        FinishLast(core1, ErrorEvent(error), now);
      }
  }

  lemma {:induction false} HandleAllStatus(
      core: Core, messages: seq<WorkerMessage>, clock: seq<Protocol.Time>, t: TaskId, n: NodeId)
    requires |messages| <= |clock| && From(messages, t, n)
    requires n in core.nodes && t in core.nodes[n].running && t in core.rows && core.rows[t].status.Queued?
    ensures var rows' := HandleAll(core, messages, clock).rows;
      t in rows' && rows'[t].status == StatusAfter(messages, t)
  {
    hide Finish, Read, Names, Tally, Marks, MarkOf;
    if messages != [] {
      var last := |messages| - 1;
      HandleAllStatus(core, messages[..last], clock, t, n);
      HandleAllTally(core, messages[..last], clock, t, n);
      HandleRow(HandleAll(core, messages[..last], clock), messages[last], clock[last], t, n);
    }
  }

  /** Message `k` leaves a finished row its status. */
  predicate KeptAt(core: Core, messages: seq<WorkerMessage>, clock: seq<Protocol.Time>, t: TaskId, k: nat)
    requires k < |messages| <= |clock|
  {
    var rows, rows' := HandleAll(core, messages[..k], clock).rows, HandleAll(core, messages[..k + 1], clock).rows;
    t in rows && !Unfinished(rows[t].status) ==> t in rows' && rows'[t].status == rows[t].status
  }

  /** A finished row keeps its status through every message. */
  ghost predicate KeepsFinished(core: Core, messages: seq<WorkerMessage>, clock: seq<Protocol.Time>, t: TaskId)
    requires |messages| <= |clock|
  {
    forall k :: 0 <= k < |messages| ==> KeptAt(core, messages, clock, t, k)
  }

  predicate Steady(messages: seq<WorkerMessage>, t: TaskId) {
    messages == [] ||
    var before := messages[..|messages| - 1];
    Steady(before, t) && (!Unfinished(StatusAfter(before, t)) ==> StatusAfter(messages, t) == StatusAfter(before, t))
  }

  lemma {:induction false} SteadyIsKept(
      core: Core, messages: seq<WorkerMessage>, clock: seq<Protocol.Time>, t: TaskId, n: NodeId)
    requires |messages| <= |clock| && From(messages, t, n)
    requires n in core.nodes && t in core.nodes[n].running && t in core.rows && core.rows[t].status.Queued?
    ensures KeepsFinished(core, messages, clock, t) <==> Steady(messages, t)
  {
    hide HandleAll, StatusAfter, Names;
    if messages != [] {
      var last := |messages| - 1;
      var before := messages[..last];
      SteadyIsKept(core, before, clock, t, n);
      HandleAllStatus(core, before, clock, t, n);
      HandleAllStatus(core, messages, clock, t, n);
      assert messages[..last + 1] == messages;
      forall k | 0 <= k < last ensures KeptAt(core, before, clock, t, k) == KeptAt(core, messages, clock, t, k) {
        assert before[..k] == messages[..k] && before[..k + 1] == messages[..k + 1];
      }
      hide Unfinished;
      assert KeepsFinished(core, messages, clock, t)
        <==> KeepsFinished(core, before, clock, t) && KeptAt(core, messages, clock, t, last);
    }
  }

  /** Whether the last exit of `t` was a success. */
  predicate ExitSucceeds(messages: seq<WorkerMessage>, t: TaskId) {
    if messages == [] then false
    else
      var last := messages[|messages| - 1];
      if last.Exited? && last.exited.task == t then last.exited.success
      else ExitSucceeds(messages[..|messages| - 1], t)
  }

  lemma {:induction false} WithoutFailuresKeeps(v: seq<Mark>, i: nat)
    requires i < |v| && v[i] != Failure
    ensures v[i] in WithoutFailures(v)
  {
    var last := |v| - 1;
    if i < last {
      WithoutFailuresKeeps(v[..last], i);
    }
  }

  lemma WithoutFailuresMore(v: seq<Mark>, last: Mark)
    ensures (v + [last])[..|v|] == v && (v + [last])[|v|] == last
    ensures WithoutFailures(v + [last]) == WithoutFailures(v) + if last.Failure? then [] else [last]
  {
    assert (v + [last])[..|v|] == v;
  }

  /** The marks of all but the last message, and what the last one adds. */
  lemma MarksSplit(messages: seq<WorkerMessage>, t: TaskId)
    requires messages != []
    ensures var v, before := Marks(messages, t), Marks(messages[..|messages| - 1], t);
      var mark := MarkOf(messages[|messages| - 1], t);
      && v == before + mark
      && (mark == [] ==> v == before)
      && (mark != [] ==> v[..|v| - 1] == before && v[|v| - 1] == mark[0])
      && (mark == [Failure] ==> WithoutFailures(v) == WithoutFailures(before))
      && (mark == [Begun] || mark == [Ended] ==>
            && WithoutFailures(v) == WithoutFailures(before) + mark
            && WithoutFailures(v)[|WithoutFailures(v)| - 1] == mark[0])
  {
    var before, mark := Marks(messages[..|messages| - 1], t), MarkOf(messages[|messages| - 1], t);
    assert Marks(messages, t) == before + mark;
    assert mark == [] || |mark| == 1;
    hide Marks, MarkOf, WithoutFailures;
    if mark != [] {
      assert before + mark == before + [mark[0]];
      WithoutFailuresMore(before, mark[0]);
    }
  }

  /** One message more, by its mark. */
  lemma RowSplit(messages: seq<WorkerMessage>, t: TaskId)
    requires messages != []
    ensures var before, mark := messages[..|messages| - 1], MarkOf(messages[|messages| - 1], t);
      var was, now := StatusAfter(before, t), StatusAfter(messages, t);
      && (mark == [] || mark == [Begun] || mark == [Ended] || mark == [Failure])
      && (Steady(messages, t) <==> Steady(before, t) && (!Unfinished(was) ==> now == was))
      && now == (if mark == [Begun] then Running
                 else if mark == [Ended] then (if ExitSucceeds(messages, t) then Succeeded else Failed)
                 else if mark == [Failure] && Tally(Marks(before, t)).0 then Failed
                 else was)
      && (mark != [Ended] ==> ExitSucceeds(messages, t) == ExitSucceeds(before, t))
  {
  }

  lemma {:induction false} RowOfFailures(messages: seq<WorkerMessage>, t: TaskId)
    requires WithoutFailures(Marks(messages, t)) == []
    ensures Steady(messages, t)
    ensures StatusAfter(messages, t) == if Marks(messages, t) == [] then Queued else Failed
  {
    if messages != [] {
      var before := messages[..|messages| - 1];
      MarksSplit(messages, t);
      RowSplit(messages, t);
      hide Marks, MarkOf, Tally, StatusAfter, Steady, ExitSucceeds;
      RowOfFailures(before, t);
      TallyOfFailures(Marks(before, t));
    }
  }

  lemma {:induction false} RowOfBegun(messages: seq<WorkerMessage>, t: TaskId)
    requires WithoutFailures(Marks(messages, t)) == [Begun]
    ensures var v := Marks(messages, t);
      && v != []
      && (Steady(messages, t) <==> v[0] == Begun)
      && StatusAfter(messages, t) == if v[|v| - 1] == Begun then Running else Failed
  {
    if messages != [] {
      var before, mark := messages[..|messages| - 1], MarkOf(messages[|messages| - 1], t);
      MarksSplit(messages, t);
      RowSplit(messages, t);
      hide Marks, MarkOf, Tally, StatusAfter, Steady, ExitSucceeds;
      if mark == [Begun] {
        assert WithoutFailures(Marks(messages, t))[|WithoutFailures(Marks(before, t))|] == Begun;
        RowOfFailures(before, t);
        TallyOfFailures(Marks(before, t));
      } else {
        RowOfBegun(before, t);
        TallyOfBegun(Marks(before, t));
      }
    }
  }

  lemma {:induction false} RowOfRun(messages: seq<WorkerMessage>, t: TaskId)
    requires WithoutFailures(Marks(messages, t)) == [Begun, Ended]
    ensures var v := Marks(messages, t);
      && |v| >= 2
      && (Steady(messages, t) <==> v[0] == Begun && (v[1] == Ended || !ExitSucceeds(messages, t)))
      && StatusAfter(messages, t) == if ExitSucceeds(messages, t) then Succeeded else Failed
  {
    if messages != [] {
      var before, mark := messages[..|messages| - 1], MarkOf(messages[|messages| - 1], t);
      MarksSplit(messages, t);
      RowSplit(messages, t);
      hide Marks, MarkOf, Tally, StatusAfter, Steady, ExitSucceeds, Complete;
      var w := WithoutFailures(Marks(before, t));
      if mark == [Ended] {
        PrefixOfTwo(w, WithoutFailures(Marks(messages, t)));
        RowOfBegun(before, t);
        OnlyBegun(Marks(before, t));
      } else {
        RowOfRun(before, t);
        TallyOfRun(Marks(before, t));
      }
    }
  }

  lemma PrefixOfTwo(w: seq<Mark>, both: seq<Mark>)
    requires both == [Begun, Ended] && both == w + [Ended]
    ensures w == [Begun]
  {
    assert w == both[..|w|];
  }

  lemma OnlyBegun(v: seq<Mark>)
    requires WithoutFailures(v) == [Begun]
    ensures v != [] && (v[0] == Begun ==> (v[|v| - 1] == Begun <==> |v| == 1))
    ensures |v| >= 2 ==> v[1] != Ended
  {
    TallyOfBegun(v);
    if |v| >= 2 && v[1] == Ended {
      WithoutFailuresKeeps(v, 1);
      assert false;
    }
  }

  /** No failed kill is reported before the start and, if the task exits successfully, none before that exit either. */
  predicate KillsInTime(messages: seq<WorkerMessage>, t: TaskId) {
    var v, w := Marks(messages, t), WithoutFailures(Marks(messages, t));
    && (w != [] ==> v[0] == Begun)
    && (w == [Begun, Ended] ==> (|v| >= 2 && v[1] == Ended) || !ExitSucceeds(messages, t))
  }

  lemma SteadyIff(messages: seq<WorkerMessage>, t: TaskId)
    requires WithoutFailures(Marks(messages, t)) <= [Begun, Ended]
    ensures Steady(messages, t) <==> KillsInTime(messages, t)
  {
    var w := WithoutFailures(Marks(messages, t));
    hide Steady, Marks, WithoutFailures;
    if w == [] {
      RowOfFailures(messages, t);
    } else if w == [Begun] {
      RowOfBegun(messages, t);
    } else {
      assert w == [Begun, Ended];
      RowOfRun(messages, t);
    }
  }

  /** The row of a queued, indexed task never leaves a finished status, for any messages, about any tasks, around those
      of `t`, exactly when the failed kills are reported in time. */
  lemma FinishedRowStaysIff(
      core: Core, messages: seq<WorkerMessage>, clock: seq<Protocol.Time>, t: TaskId, n: NodeId)
    requires |messages| <= |clock| && From(messages, t, n)
    requires n in core.nodes && t in core.nodes[n].running && t in core.rows && core.rows[t].status.Queued?
    requires WithoutFailures(Marks(messages, t)) <= [Begun, Ended]
    ensures KeepsFinished(core, messages, clock, t) <==> KillsInTime(messages, t)
  {
    SteadyIsKept(core, messages, clock, t, n);
    SteadyIff(messages, t);
  }

  /** The shortest harmful case: the report of a failed kill, then the start it was too early for. The row is failed
      and then running again. */
  lemma EarlyKillLeavesTerminal(core: Core, job: JobId, t: TaskId, n: NodeId, message: string, now: Protocol.Time)
    requires n in core.nodes && t in core.nodes[n].running
    requires t in core.rows && core.rows[t].status.Queued?
    ensures var report := Error(WorkerError(Some(n), Some(t), message));
      var start := Started(TaskStarted(job, t, n, None, now));
      && t in HandleAll(core, [report], [now, now]).rows
      && HandleAll(core, [report], [now, now]).rows[t].status.Failed?
      && t in HandleAll(core, [report, start], [now, now]).rows
      && HandleAll(core, [report, start], [now, now]).rows[t].status.Running?
  {
    var report := Error(WorkerError(Some(n), Some(t), message));
    var start := Started(TaskStarted(job, t, n, None, now));
    assert [report, start][..1] == [report] && [report][..0] == [];
    FailureOfIndexed(core, report, now, t, n);
    var core1 := HandleAll(core, [report], [now, now]);
    var (core2, cont2) := Read(core1, start, now);
    FinishStarted(core2, start.started, now);
  }

  lemma FailureOfIndexed(core: Core, report: WorkerMessage, now: Protocol.Time, t: TaskId, n: NodeId)
    requires n in core.nodes && t in core.nodes[n].running
    requires report.Error? && report.error.node == Some(n) && report.error.task == Some(t)
    ensures var core' := HandleAll(core, [report], [now, now]);
      t in core'.rows && core'.rows[t].status.Failed?
  {
    assert [report][..0] == [];
    var (core1, cont1) := Read(core, report, now);
    FinishError(core1, cont1.exit, report.error, now);
  }
}
