/** The loop of `run_process` that follows a job until every assigned task has exited. */
module WaitLoop {
  import opened Protocol
  import opened Sequences

  datatype Response =
    | TaskStartedResponse(started: TaskStarted)
    | LogResponse(log: LogLine)
    | TaskExitedResponse(exited: TaskExited)
    | ErrorResponse(message: string)

  datatype Waiting = Waiting(pending: set<TaskId>, exits: seq<TaskExited>, sent: seq<Response>)

  /** One turn of the loop. */
  function WaitStep(w: Waiting, event: CoordinatorEvent): Waiting {
    match event
    case StartedEvent(e) => if e.task in w.pending then w.(sent := w.sent + [TaskStartedResponse(e)]) else w
    case LogEvent(l) => if l.task in w.pending then w.(sent := w.sent + [LogResponse(l)]) else w
    case ExitedEvent(e) =>
      if e.task in w.pending then
        Waiting(w.pending - {e.task}, w.exits + [e], w.sent + [TaskExitedResponse(e)])
      else w
    case ErrorEvent(e) => w.(sent := w.sent + [ErrorResponse(e.message)])
  }

  function Assigned(assignments: seq<TaskAssignment>): set<TaskId> {
    set a | a in assignments :: a.task
  }

  function Start(assignments: seq<TaskAssignment>): Waiting {
    Waiting(Assigned(assignments), [], [])
  }

  /** The first exit of `task` in the stream. */
  function FirstExit(events: seq<CoordinatorEvent>, task: TaskId): Option<TaskExited> {
    if events == [] then None
    else
      var last := events[|events| - 1];
      var before := FirstExit(events[..|events| - 1], task);
      if before.None? && last.ExitedEvent? && last.exited.task == task then Some(last.exited) else before
  }

  lemma {:induction false} FirstExitSeen(events: seq<CoordinatorEvent>, task: TaskId)
    ensures FirstExit(events, task).Some? <==>
            exists i :: 0 <= i < |events| && events[i].ExitedEvent? && events[i].exited.task == task
    ensures FirstExit(events, task).Some? ==>
              FirstExit(events, task).value.task == task && ExitedEvent(FirstExit(events, task).value) in events
  {
    if events != [] {
      FirstExitSeen(events[..|events| - 1], task);
    }
  }

  predicate Succeeds(events: seq<CoordinatorEvent>, task: TaskId) {
    FirstExit(events, task).Some? && FirstExit(events, task).value.success
  }

  /** What a client is due: of each wanted task everything up to and including its first exit, and every error. */
  function Relay(wanted: set<TaskId>, events: seq<CoordinatorEvent>): seq<Response> {
    if events == [] then []
    else
      var before := events[..|events| - 1];
      Relay(wanted, before)
      + match events[|events| - 1]
        case StartedEvent(e) =>
          if e.task in wanted && FirstExit(before, e.task).None? then [TaskStartedResponse(e)] else []
        case LogEvent(l) =>
          if l.task in wanted && FirstExit(before, l.task).None? then [LogResponse(l)] else []
        case ExitedEvent(e) =>
          if e.task in wanted && FirstExit(before, e.task).None? then [TaskExitedResponse(e)] else []
        case ErrorEvent(e) => [ErrorResponse(e.message)]
  }

  // ---- What is due, event by event ----

  /** An exit of `task` stands among the first `n` events. */
  predicate ExitedBefore(events: seq<CoordinatorEvent>, n: nat, task: TaskId)
    requires n <= |events|
  {
    exists j :: 0 <= j < n && events[j].ExitedEvent? && events[j].exited.task == task
  }

  /** Event `k` goes to a client that waits for `wanted`. */
  predicate Due(wanted: set<TaskId>, events: seq<CoordinatorEvent>, k: nat)
    requires k < |events|
  {
    match events[k]
    case StartedEvent(e) => e.task in wanted && !ExitedBefore(events, k, e.task)
    case LogEvent(l) => l.task in wanted && !ExitedBefore(events, k, l.task)
    case ExitedEvent(e) => e.task in wanted && !ExitedBefore(events, k, e.task)
    case ErrorEvent(_) => true
  }

  function ResponseTo(event: CoordinatorEvent): Response {
    match event
    case StartedEvent(e) => TaskStartedResponse(e)
    case LogEvent(l) => LogResponse(l)
    case ExitedEvent(e) => TaskExitedResponse(e)
    case ErrorEvent(e) => ErrorResponse(e.message)
  }

  function Responses(events: seq<CoordinatorEvent>): seq<Response> {
    seq(|events|, i requires 0 <= i < |events| => ResponseTo(events[i]))
  }

  function DueFlags(wanted: set<TaskId>, events: seq<CoordinatorEvent>): seq<bool> {
    seq(|events|, k requires 0 <= k < |events| => Due(wanted, events, k))
  }

  /** `sent` are the responses to the events that are due, each once and in the order of the events. */
  ghost predicate AnswersDue(wanted: set<TaskId>, events: seq<CoordinatorEvent>, sent: seq<Response>) {
    exists ks: seq<nat> :: Picks(sent, Responses(events), DueFlags(wanted, events), ks)
  }

  lemma {:induction false} FirstExitIff(events: seq<CoordinatorEvent>, task: TaskId, e: TaskExited)
    ensures FirstExit(events, task) == Some(e) <==>
            exists i :: 0 <= i < |events| && events[i] == ExitedEvent(e) && e.task == task
              && !ExitedBefore(events, i, task)
    ensures FirstExit(events, task).None? <==> !ExitedBefore(events, |events|, task)
  {
    if events != [] {
      var last := |events| - 1;
      var before := events[..last];
      FirstExitIff(before, task, e);
      forall i | 0 <= i <= last ensures ExitedBefore(events, i, task) <==> ExitedBefore(before, i, task) { }
      assert ExitedBefore(events, last + 1, task)
        <==> ExitedBefore(events, last, task) || (events[last].ExitedEvent? && events[last].exited.task == task);
    }
  }

  lemma DueBefore(wanted: set<TaskId>, before: seq<CoordinatorEvent>, last: CoordinatorEvent)
    ensures Responses(before + [last]) == Responses(before) + [ResponseTo(last)]
    ensures DueFlags(wanted, before + [last]) == DueFlags(wanted, before) + [Due(wanted, before + [last], |before|)]
  {
    var events := before + [last];
    forall k | 0 <= k < |before| ensures Due(wanted, events, k) <==> Due(wanted, before, k) {
      assert events[..k] == before[..k];
      forall t ensures ExitedBefore(events, k, t) <==> ExitedBefore(before, k, t) { }
    }
  }

  lemma {:induction false} RelayIsDue(wanted: set<TaskId>, events: seq<CoordinatorEvent>) returns (ks: seq<nat>)
    ensures Picks(Relay(wanted, events), Responses(events), DueFlags(wanted, events), ks)
  {
    hide Picks;
    if events == [] {
      PicksNothing<Response>();
      ks := [];
      assert Responses(events) == [] && DueFlags(wanted, events) == [];
    } else {
      var n := |events| - 1;
      var before, last := events[..n], events[n];
      assert events == before + [last];
      ks := RelayIsDue(wanted, before);
      var due := Due(wanted, events, n);
      PicksLast(Relay(wanted, before), Responses(before), ResponseTo(last), DueFlags(wanted, before), due, ks);
      DueBefore(wanted, before, last);
      RelayLast(wanted, events);
      ks := ks + (if due then [|Responses(before)|] else []);
    }
  }

  lemma RelayLast(wanted: set<TaskId>, events: seq<CoordinatorEvent>)
    requires events != []
    ensures var n := |events| - 1;
      Relay(wanted, events)
        == Relay(wanted, events[..n]) + (if Due(wanted, events, n) then [ResponseTo(events[n])] else [])
  {
    var n := |events| - 1;
    hide FirstExit;
    forall t ensures FirstExit(events[..n], t).None? <==> !ExitedBefore(events, n, t) {
      FirstExitIff(events[..n], t, TaskExited(JobId(""), t, NodeId(""), None, false, 0));
      assert ExitedBefore(events, n, t) <==> ExitedBefore(events[..n], n, t);
    }
  }

  ghost predicate AllExited(wanted: set<TaskId>, events: seq<CoordinatorEvent>) {
    forall t :: t in wanted ==> FirstExit(events, t).Some?
  }

  predicate About(r: Response, task: TaskId) {
    match r
    case TaskStartedResponse(e) => e.task == task
    case LogResponse(l) => l.task == task
    case TaskExitedResponse(e) => e.task == task
    case ErrorResponse(_) => false
  }

  /** Once a task's exit has been forwarded, nothing more about that task is. */
  ghost predicate QuietAfterExit(sent: seq<Response>) {
    forall i, j :: 0 <= i < j < |sent| && sent[i].TaskExitedResponse? ==> !About(sent[j], sent[i].exited.task)
  }

  lemma FirstExitNext(seen: seq<CoordinatorEvent>, event: CoordinatorEvent, task: TaskId)
    ensures FirstExit(seen + [event], task) ==
            if FirstExit(seen, task).None? && event.ExitedEvent? && event.exited.task == task
            then Some(event.exited) else FirstExit(seen, task)
  {
    assert (seen + [event])[..|seen|] == seen;
  }

  // What the loop knows after `seen`: which tasks are pending, which exits it has collected, what it has sent.

  ghost predicate PendingOk(wanted: set<TaskId>, seen: seq<CoordinatorEvent>, w: Waiting) {
    forall t :: t in w.pending <==> t in wanted && FirstExit(seen, t).None?
  }

  ghost predicate ExitsOk(wanted: set<TaskId>, seen: seq<CoordinatorEvent>, w: Waiting) {
    && (forall i :: 0 <= i < |w.exits| ==>
          && w.exits[i].task in wanted && w.exits[i].task !in w.pending
          && FirstExit(seen, w.exits[i].task) == Some(w.exits[i]))
    && (forall i, j :: 0 <= i < j < |w.exits| ==> w.exits[i].task != w.exits[j].task)
    && (forall t :: t in wanted && t !in w.pending ==> exists i :: 0 <= i < |w.exits| && w.exits[i].task == t)
    && w.pending <= wanted
    && |w.pending| + |w.exits| == |wanted|
  }

  ghost predicate RelayOk(wanted: set<TaskId>, seen: seq<CoordinatorEvent>, w: Waiting) {
    && w.sent == Relay(wanted, seen)
    && QuietAfterExit(w.sent)
    && (forall i :: 0 <= i < |w.sent| && w.sent[i].TaskExitedResponse? ==> w.sent[i].exited.task !in w.pending)
  }

  ghost predicate Follows(wanted: set<TaskId>, seen: seq<CoordinatorEvent>, w: Waiting) {
    PendingOk(wanted, seen, w) && ExitsOk(wanted, seen, w) && RelayOk(wanted, seen, w)
  }

  lemma FollowsStart(wanted: set<TaskId>)
    ensures Follows(wanted, [], Waiting(wanted, [], []))
  {
  }

  lemma PendingStep(wanted: set<TaskId>, seen: seq<CoordinatorEvent>, w: Waiting, event: CoordinatorEvent)
    requires PendingOk(wanted, seen, w)
    ensures PendingOk(wanted, seen + [event], WaitStep(w, event))
  {
    forall t ensures t in WaitStep(w, event).pending <==> t in wanted && FirstExit(seen + [event], t).None? {
      FirstExitNext(seen, event, t);
    }
  }

  lemma ExitsStep(wanted: set<TaskId>, seen: seq<CoordinatorEvent>, w: Waiting, event: CoordinatorEvent)
    requires PendingOk(wanted, seen, w) && ExitsOk(wanted, seen, w)
    ensures ExitsOk(wanted, seen + [event], WaitStep(w, event))
  {
    hide FirstExit;
    var w' := WaitStep(w, event);
    forall i | 0 <= i < |w'.exits| ensures FirstExit(seen + [event], w'.exits[i].task) == Some(w'.exits[i]) {
      FirstExitNext(seen, event, w'.exits[i].task);
    }
    if event.ExitedEvent? && event.exited.task in w.pending {
      OneMoreExit(wanted, w, event.exited);
    }
  }

  /** Collecting an exit leaves every task that is not pending with an exit. */
  lemma OneMoreExit(wanted: set<TaskId>, w: Waiting, e: TaskExited)
    requires forall t :: t in wanted && t !in w.pending ==> exists i :: 0 <= i < |w.exits| && w.exits[i].task == t
    ensures var exits := w.exits + [e];
      forall t :: t in wanted && t !in w.pending - {e.task} ==> exists i :: 0 <= i < |exits| && exits[i].task == t
  {
    var exits := w.exits + [e];
    forall t | t in wanted && t !in w.pending - {e.task} ensures exists i :: 0 <= i < |exits| && exits[i].task == t {
      if t == e.task {
        assert exits[|w.exits|].task == t;
      } else {
        var i :| 0 <= i < |w.exits| && w.exits[i].task == t;
        assert exits[i].task == t;
      }
    }
  }

  lemma SentStep(wanted: set<TaskId>, seen: seq<CoordinatorEvent>, w: Waiting, event: CoordinatorEvent)
    requires PendingOk(wanted, seen, w) && RelayOk(wanted, seen, w)
    ensures RelayOk(wanted, seen + [event], WaitStep(w, event))
  {
    assert (seen + [event])[..|seen|] == seen;
  }

  lemma FollowsStep(wanted: set<TaskId>, seen: seq<CoordinatorEvent>, w: Waiting, event: CoordinatorEvent)
    requires Follows(wanted, seen, w)
    ensures Follows(wanted, seen + [event], WaitStep(w, event))
  {
    PendingStep(wanted, seen, w, event);
    ExitsStep(wanted, seen, w, event);
    SentStep(wanted, seen, w, event);
  }

  lemma Outcome(wanted: set<TaskId>, stream: seq<CoordinatorEvent>, read: nat, w: Waiting)
    requires read <= |stream| && PendingOk(wanted, stream[..read], w) && ExitsOk(wanted, stream[..read], w)
    requires w.pending == {}
    ensures AllExited(wanted, stream[..read]) && AllExited(wanted, stream)
    ensures |w.exits| == |wanted|
    ensures (forall i :: 0 <= i < |w.exits| ==> w.exits[i].success)
            <==> forall t :: t in wanted ==> Succeeds(stream, t)
  {
    forall t | t in wanted
      ensures FirstExit(stream, t).Some?
      ensures exists i :: 0 <= i < |w.exits| && FirstExit(stream, t) == Some(w.exits[i])
    {
      var i :| 0 <= i < |w.exits| && w.exits[i].task == t;
      FirstExitIsStable(stream, read, t);
    }
    forall i | 0 <= i < |w.exits| ensures FirstExit(stream, w.exits[i].task) == Some(w.exits[i]) {
      FirstExitIsStable(stream, read, w.exits[i].task);
    }
  }

  /** Reads `stream` until no task is pending; `finished` is false when the stream has no more to read. */
  method Wait(assignments: seq<TaskAssignment>, stream: seq<CoordinatorEvent>)
    returns (read: nat, finished: bool, exits: seq<TaskExited>, success: bool, sent: seq<Response>)
    ensures read <= |stream|
    ensures finished <==> AllExited(Assigned(assignments), stream)
    ensures finished ==> AllExited(Assigned(assignments), stream[..read])
    ensures forall k :: 0 <= k < read ==> !AllExited(Assigned(assignments), stream[..k])
    ensures forall i :: 0 <= i < |exits| ==>
              exits[i].task in Assigned(assignments) && FirstExit(stream[..read], exits[i].task) == Some(exits[i])
    ensures forall i, j :: 0 <= i < j < |exits| ==> exits[i].task != exits[j].task
    ensures finished ==> |exits| == |Assigned(assignments)|
    ensures finished ==>
              (success <==> forall t :: t in Assigned(assignments) ==> Succeeds(stream, t))
    ensures sent == Relay(Assigned(assignments), stream[..read]) && QuietAfterExit(sent)
    ensures AnswersDue(Assigned(assignments), stream[..read], sent)
  {
    var w := Start(assignments);
    ghost var wanted := Assigned(assignments);
    FollowsStart(wanted);
    read := 0;
    assert stream[..0] == [];
    while w.pending != {} && read < |stream|
      invariant read <= |stream|
      invariant Follows(wanted, stream[..read], w)
      invariant forall k :: 0 <= k < read ==> !AllExited(wanted, stream[..k])
      decreases |stream| - read
    {
      assert !AllExited(wanted, stream[..read]);
      assert stream[..read + 1] == stream[..read] + [stream[read]];
      FollowsStep(wanted, stream[..read], w, stream[read]);
      w := WaitStep(w, stream[read]);
      read := read + 1;
    }
    ghost var ks := RelayIsDue(wanted, stream[..read]);
    hide Relay, Picks;
    finished := w.pending == {};
    exits, sent := w.exits, w.sent;
    success := forall i :: 0 <= i < |exits| ==> exits[i].success;
    if finished {
      Outcome(wanted, stream, read, w);
    } else {
      assert stream[..read] == stream;
    }
  }

  lemma {:induction false} FirstExitIsStable(stream: seq<CoordinatorEvent>, read: nat, task: TaskId)
    requires read <= |stream| && FirstExit(stream[..read], task).Some?
    ensures FirstExit(stream, task) == FirstExit(stream[..read], task)
  {
    if read < |stream| {
      var last := |stream| - 1;
      assert stream[..last][..read] == stream[..read];
      FirstExitIsStable(stream[..last], read, task);
    } else {
      assert stream[..read] == stream;
    }
  }

  /** Reading everything leaves pending exactly the tasks whose exit is not in what was read. */
  function WaitAll(w: Waiting, events: seq<CoordinatorEvent>): Waiting {
    if events == [] then w else WaitStep(WaitAll(w, events[..|events| - 1]), events[|events| - 1])
  }

  lemma {:induction false} PendingAfter(w: Waiting, events: seq<CoordinatorEvent>, task: TaskId)
    ensures task in WaitAll(w, events).pending <==> task in w.pending && FirstExit(events, task).None?
  {
    if events != [] {
      PendingAfter(w, events[..|events| - 1], task);
    }
  }
}
