/** What a waiting client is told, over every run of the whole system: exactly what is due to it of the events broadcast
    since it subscribed. */
module Subscriptions {
  import opened Protocol
  import opened CoordinatorCore
  import opened WaitLoop
  import opened Cluster
  import opened WakeUp
  import opened Leases

  /** The run has read from event `begin` up to its cursor and done with it what the loop does. */
  ghost predicate Reading(run: Run, events: seq<CoordinatorEvent>, begin: nat) {
    && begin <= run.cursor <= |events|
    && (run.phase.Subscribed? || run.phase.Dispatching? ==> run.cursor == begin)
    && (run.phase.Following? || run.phase.Finished? ==>
          Follows(Assigned(run.assignments), events[begin..run.cursor], run.waiting))
    && (run.phase.Finished? ==>
          run.waiting.pending == {} && (run.success <==> forall e :: e in run.waiting.exits ==> e.success))
  }

  lemma MoreEvents(run: Run, events: seq<CoordinatorEvent>, events': seq<CoordinatorEvent>, begin: nat)
    requires Reading(run, events, begin) && events <= events'
    ensures Reading(run, events', begin)
  {
    hide Follows;
    assert events'[begin..run.cursor] == events[begin..run.cursor];
  }

  lemma WorkSteps(s: Sys, c: nat, step: WorkStep, s': Sys)
    requires NextWork(s, c, step, s')
    ensures s'.runs == s.runs && s'.core.events == s.core.events
  {
  }

  lemma FollowsNow(run: Run, events: seq<CoordinatorEvent>, begin: nat)
    requires run.cursor == begin <= |events|
    ensures Follows(Assigned(run.assignments), events[begin..run.cursor], WaitLoop.Start(run.assignments))
  {
    assert events[begin..begin] == [];
    FollowsStart(Assigned(run.assignments));
  }

  lemma ReadsNext(run: Run, events: seq<CoordinatorEvent>, begin: nat)
    requires Reading(run, events, begin) && run.phase.Following? && run.cursor < |events|
    ensures Reading(run.(waiting := WaitStep(run.waiting, events[run.cursor]), cursor := run.cursor + 1), events, begin)
  {
    assert events[begin..run.cursor + 1] == events[begin..run.cursor] + [events[run.cursor]];
    hide Follows, WaitStep;
    FollowsStep(Assigned(run.assignments), events[begin..run.cursor], run.waiting, events[run.cursor]);
  }

  lemma ClientReads(s: Sys, step: ClientStep, s': Sys, r: nat, begin: nat)
    requires NextClient(s, step, s') && r in s.runs && Reading(s.runs[r], s.core.events, begin)
    ensures r in s'.runs && s'.core.events == s.core.events && Reading(s'.runs[r], s'.core.events, begin)
  {
    match step
    case Follow(q) =>
      hide Follows;
      if q == r { FollowsNow(s.runs[r], s.core.events, begin); }
    case ReadEvent(q) =>
      hide Follows, WaitStep, Reading;
      if q == r { ReadsNext(s.runs[r], s.core.events, begin); }
    case _ => hide Follows, LeaseCreated, LeaseReleased, Addressed, KillTargets, IsNodeOrder;
  }

  lemma DispatchReads(s: Sys, step: Step, s': Sys, r: nat, begin: nat)
    requires step.Dispatch? && Next(s, step, s') && r in s.runs && Reading(s.runs[r], s.core.events, begin)
    ensures r in s'.runs && Reading(s'.runs[r], s'.core.events, begin)
  {
    var Dispatch(q, request, job, selected, upto, ids, clock) := step;
    PlaceAligned(s.core, request, job, selected[..upto], ids, clock);
    hide PlaceAll, Places, Follows;
  }

  lemma StepReads(s: Sys, step: Step, s': Sys, r: nat, begin: nat)
    requires Next(s, step, s') && r in s.runs && Reading(s.runs[r], s.core.events, begin)
    ensures r in s'.runs && Reading(s'.runs[r], s'.core.events, begin)
  {
    hide NextWire, NextWork, NextClient, Reading;
    match step
    case Wire(wire) =>
      WireEvents(s, wire, s');
      MoreEvents(s.runs[r], s.core.events, s'.core.events, begin);
    case Work(c, work) => WorkSteps(s, c, work, s');
    case Client(call) => ClientReads(s, call, s', r, begin);
    case Dispatch(_, _, _, _, _, _, _) => DispatchReads(s, step, s', r, begin);
  }

  lemma SubscribeStep(s: Sys, r: nat, s': Sys)
    requires Next(s, Client(Subscribe(r)), s')
    ensures r in s'.runs && Reading(s'.runs[r], s'.core.events, |s.core.events|)
  {
  }

  lemma {:induction false} ReadingHolds(states: seq<Sys>, steps: seq<Step>, k: nat, i: nat, r: nat)
    requires Execution(states, steps) && k < i <= |steps| && steps[k] == Client(Subscribe(r))
    ensures |states| == |steps| + 1 && r in states[i].runs
    ensures Reading(states[i].runs[r], states[i].core.events, |states[k].core.events|)
  {
    hide Execution, Next, Reading;
    RunStep(states, steps, i - 1);
    if i == k + 1 {
      SubscribeStep(states[k], r, states[i]);
    } else {
      ReadingHolds(states, steps, k, i - 1, r);
      StepReads(states[i - 1], steps[i - 1], states[i], r, |states[k].core.events|);
    }
  }

  /** In every run of the system, a client that waits has been sent exactly what is due to it of the events broadcast
      since it subscribed, as far as it has read: every error, and of each of its tasks everything up to its first exit.
      It is told that the job has finished when it has read an exit of every task, and of success when all of these
      succeeded. */
  lemma ClientIsToldWhatIsDue(states: seq<Sys>, steps: seq<Step>, k: nat, i: nat, r: nat)
    requires Execution(states, steps) && k < i <= |steps| && steps[k] == Client(Subscribe(r))
    ensures |states| == |steps| + 1 && r in states[i].runs
    ensures var run, begin := states[i].runs[r], |states[k].core.events|;
      run.phase.Following? || run.phase.Finished? ==>
        && begin <= run.cursor <= |states[i].core.events|
        && var seen, wanted := states[i].core.events[begin..run.cursor], Assigned(run.assignments);
           && AnswersDue(wanted, seen, run.waiting.sent)
           && (forall t :: t in run.waiting.pending <==> t in wanted && !ExitedBefore(seen, |seen|, t))
           && (run.phase.Finished? ==>
                 && AllExited(wanted, seen)
                 && (run.success <==> forall t :: t in wanted ==> Succeeds(seen, t)))
  {
    ReadingHolds(states, steps, k, i, r);
    hide Execution, Next;
    var run, begin := states[i].runs[r], |states[k].core.events|;
    if run.phase.Following? || run.phase.Finished? {
      var seen, wanted := states[i].core.events[begin..run.cursor], Assigned(run.assignments);
      FollowingTells(wanted, seen, run.waiting);
      if run.phase.Finished? {
        hide Follows, AnswersDue;
        assert seen[..|seen|] == seen;
        FollowsParts(wanted, seen, run.waiting);
        Outcome(wanted, seen, |seen|, run.waiting);
      }
    }
  }

  lemma FollowsParts(wanted: set<TaskId>, seen: seq<CoordinatorEvent>, w: Waiting)
    requires Follows(wanted, seen, w)
    ensures PendingOk(wanted, seen, w) && ExitsOk(wanted, seen, w) && RelayOk(wanted, seen, w)
  {
  }

  lemma FollowingTells(wanted: set<TaskId>, seen: seq<CoordinatorEvent>, w: Waiting)
    requires Follows(wanted, seen, w)
    ensures AnswersDue(wanted, seen, w.sent)
    ensures forall t :: t in w.pending <==> t in wanted && !ExitedBefore(seen, |seen|, t)
  {
    hide ExitsOk;
    var ks := RelayIsDue(wanted, seen);
    assert AnswersDue(wanted, seen, w.sent);
    hide Relay, FirstExit, AnswersDue;
    forall t ensures t in w.pending <==> t in wanted && !ExitedBefore(seen, |seen|, t) {
      FirstExitIff(seen, t, TaskExited(JobId(""), t, NodeId(""), None, false, 0));
    }
  }
}
