/** Client calls and the placing of tasks keep the lifecycle invariant. */
module ClientSteps {
  import opened Protocol
  import opened CoordinatorCore
  import opened WaitLoop
  import opened Cluster
  import opened Lifecycle
  import opened CoordinatorSteps

  // ---- Steps of one run ----

  /** The placed tasks of run `r` see no difference. */
  predicate SamePlaces(runs: map<nat, Run>, r: nat, run': Run) {
    r in runs ==>
      && run'.job == runs[r].job && run'.assignments == runs[r].assignments && run'.next == runs[r].next
      && (run'.phase.Subscribed? ==> runs[r].phase.Subscribed?)
  }

  lemma TaskInOtherRun(s: Sys, r: nat, run': Run, t: TaskId)
    requires TaskOk(s, t) && SamePlaces(s.runs, r, run')
    ensures TaskOk(WithRun(s, r, run'), t)
  {
    hide Delivered, Shape, StatusOk, IndexOk, EventsOk;
  }

  lemma RunStep(s: Sys, r: nat, run': Run)
    requires Life(s) && SamePlaces(s.runs, r, run') && RunOk(s.placed, s.core, r, run')
    ensures Life(WithRun(s, r, run'))
  {
    hide ConnOk, TaskOk, RunOk, KillOk, HistoryOk, NodeOk;
    var s' := WithRun(s, r, run');
    forall t | t in s'.placed ensures TaskOk(s', t) {
      TaskInOtherRun(s, r, run', t);
    }
  }

  lemma AboutRun(s: Sys, r: nat)
    requires Life(s) && r in s.runs
    ensures RunOk(s.placed, s.core, r, s.runs[r])
  {
    hide ConnsOk, AllTasksOk, KillsOk, HistoryOk, NodesOk, RunOk;
  }

  lemma FollowKeeps(s: Sys, r: nat)
    requires Life(s) && CanFollow(s, r)
    ensures Life(DoFollow(s, r))
  {
    hide Life;
    AboutRun(s, r);
    hide DispatchesOk, JobOwned;
    var run := s.runs[r];
    RunStep(s, r, run.(phase := if run.wait then Following else Stopped, waiting := WaitLoop.Start(run.assignments)));
  }

  lemma ReadEventCollects(
      events: seq<CoordinatorEvent>, assignments: seq<TaskAssignment>, w: Waiting, event: CoordinatorEvent)
    requires Collected(events, assignments, w) && event in events
    ensures Collected(events, assignments, WaitStep(w, event))
  {
    var w' := WaitStep(w, event);
    if event.ExitedEvent? && event.exited.task in w.pending {
      assert w'.exits[|w.exits|] == event.exited;
      forall t | t in Assigned(assignments) && t !in w'.pending
        ensures exists i :: 0 <= i < |w'.exits| && w'.exits[i].task == t
      {
        if t != event.exited.task {
          var i :| 0 <= i < |w.exits| && w.exits[i].task == t;
          assert w'.exits[i].task == t;
        }
      }
    }
  }

  lemma ReadEventKeepsLife(s: Sys, r: nat)
    requires Life(s) && CanReadEvent(s, r)
    ensures Life(DoReadEvent(s, r))
  {
    hide Life;
    AboutRun(s, r);
    hide DispatchesOk, JobOwned;
    var run := s.runs[r];
    ReadEventCollects(s.core.events, run.assignments, run.waiting, s.core.events[run.cursor]);
    hide Collected;
    RunStep(s, r, run.(waiting := WaitStep(run.waiting, s.core.events[run.cursor]), cursor := run.cursor + 1));
  }

  lemma FinishKeeps(s: Sys, r: nat)
    requires Life(s) && CanFinish(s, r)
    ensures Life(DoFinish(s, r))
  {
    hide Life;
    AboutRun(s, r);
    hide DispatchesOk, JobOwned;
    var run := s.runs[r];
    var run' := run.(phase := Finished, success := forall e :: e in run.waiting.exits ==> e.success);
    hide Collected;
    RunStep(s, r, run');
  }

  lemma StopKeeps(s: Sys, r: nat)
    requires Life(s) && CanStop(s, r)
    ensures Life(DoStop(s, r))
  {
    hide Life;
    AboutRun(s, r);
    hide DispatchesOk, JobOwned, Collected;
    RunStep(s, r, s.runs[r].(phase := Stopped));
  }

  lemma SubscribeKeeps(s: Sys, r: nat)
    requires Life(s) && r !in s.runs
    ensures Life(DoSubscribe(s, r))
  {
    hide Life;
    RunStep(s, r, Run(Subscribed, |s.core.events|, JobId(""), [], [], 0, false, Waiting({}, [], []), false));
  }

  // ---- Posting ----

  lemma PostedMail(conn: Conn, message: CoordinatorMessage, t: TaskId, was: bool, now: bool)
    requires Delivered(conn, t, was)
    requires now == (was || (message.StartTask? && message.spec.task == t))
    requires message.StartTask? && message.spec.task == t ==> !was
    ensures Delivered(conn.(inbox := conn.inbox + [message]), t, now)
  {
    StartsOfMore(conn.inbox, message, t);
    assert (conn.inbox + [message])[..conn.got] == conn.inbox[..conn.got];
  }

  lemma PostKeepsTask(s: Sys, c: nat, message: CoordinatorMessage, runs': map<nat, Run>, t: TaskId)
    requires TaskOk(s, t) && c in s.conns && PlaceOk(runs', t, s.placed[t])
    requires Posted(runs', s.placed[t]) ==
             (Posted(s.runs, s.placed[t])
              || (s.placed[t].conn == c && message.StartTask? && message.spec.task == t))
    requires message.StartTask? && message.spec.task == t ==> !Posted(s.runs, s.placed[t])
    ensures TaskOk(Post(s, c, message).(runs := runs'), t)
  {
    hide PlaceOk, Posted, EventsOk;
    if s.placed[t].conn == c {
      PostedMail(s.conns[c], message, t, Posted(s.runs, s.placed[t]), Posted(runs', s.placed[t]));
    }
    hide Delivered;
  }

  lemma PostKeepsConns(s: Sys, c: nat, message: CoordinatorMessage)
    requires ConnsOk(s) && c in s.conns && MailOk(s.placed, c, message)
    ensures ConnsOk(Post(s, c, message))
  {
    var s' := Post(s, c, message);
    forall d | d in s'.conns ensures ConnOk(s'.placed, s'.core, d, s'.conns[d]) {
      assert ConnOk(s.placed, s.core, d, s.conns[d]);
      if d == c {
        assert InboxOk(s.placed, c, s'.conns[c].inbox);
        hide SentOk, TasksOk, InboxOk, MailOk;
        assert ContOk(s.placed, s.core.rows, c, s'.conns[c]);
      }
    }
  }

  lemma PostKeepsNodes(s: Sys, c: nat, message: CoordinatorMessage)
    requires NodesOk(s) && c in s.conns
    ensures NodesOk(Post(s, c, message))
  {
    forall n | n in s.core.nodes
      ensures NodeOk(s.placed, Post(s, c, message).conns, n, s.core.nodes[n])
    {
      assert NodeOk(s.placed, s.conns, n, s.core.nodes[n]);
    }
  }

  lemma SendStartKeepsTask(s: Sys, r: nat, t: TaskId)
    requires CanSendStart(s, r) && TaskOk(s, t)
    requires DispatchesOk(s.placed, r, s.runs[r].job, s.runs[r].assignments, s.runs[r].dispatch)
    ensures TaskOk(DoSendStart(s, r), t)
  {
    var run, p := s.runs[r], s.placed[t];
    var run' := run.(next := run.next + 1);
    var (c, spec) := run.dispatch[run.next];
    assert DispatchOk(s.placed, r, run.job, run.assignments[run.next], run.dispatch[run.next], run.next);
    assert PlaceOk(s.runs, t, p) by { hide Delivered, Shape, StatusOk, IndexOk, EventsOk; }
    hide TaskIn, DispatchesOk;
    PostKeepsTask(s, c, StartTask(spec), s.runs[r := run'], t);
    assert DoSendStart(s, r) == Post(s, c, StartTask(spec)).(runs := s.runs[r := run']);
  }

  lemma SendStartKeepsRun(s: Sys, r: nat, q: nat)
    requires CanSendStart(s, r) && q in s.runs && RunOk(s.placed, s.core, q, s.runs[q])
    ensures RunOk(s.placed, s.core, q, DoSendStart(s, r).runs[q])
  {
    hide JobOwned, Collected, DispatchesOk;
  }

  lemma SendStartKeeps(s: Sys, r: nat)
    requires Life(s) && CanSendStart(s, r)
    ensures Life(DoSendStart(s, r))
  {
    hide ConnOk, TaskOk, KillOk, HistoryOk, NodesOk, RunOk, ConnsOk;
    var run, s' := s.runs[r], DoSendStart(s, r);
    AboutRun(s, r);
    RunIsPlaced(s, r);
    var (c, spec) := run.dispatch[run.next];
    assert DispatchOk(s.placed, r, run.job, run.assignments[run.next], run.dispatch[run.next], run.next);
    forall t | t in s'.placed ensures TaskOk(s', t) { SendStartKeepsTask(s, r, t); }
    forall q | q in s'.runs ensures RunOk(s'.placed, s'.core, q, s'.runs[q]) {
      AboutRun(s, q);
      SendStartKeepsRun(s, r, q);
    }
    PostKeepsConns(s, c, StartTask(spec));
    PostKeepsNodes(s, c, StartTask(spec));
    SameParts(Post(s, c, StartTask(spec)), s');
  }

  lemma RunIsPlaced(s: Sys, r: nat)
    requires r in s.runs && RunOk(s.placed, s.core, r, s.runs[r]) && !s.runs[r].phase.Subscribed?
    ensures DispatchesOk(s.placed, r, s.runs[r].job, s.runs[r].assignments, s.runs[r].dispatch)
  {
  }

  lemma SameParts(s: Sys, s': Sys)
    requires s'.core == s.core && s'.conns == s.conns && s'.placed == s.placed
    ensures ConnsOk(s) ==> ConnsOk(s')
    ensures NodesOk(s) ==> NodesOk(s')
  {
  }

  // ---- Kills and leases ----

  lemma KillJobKeeps(s: Sys, k: nat, job: JobId, targets: seq<(NodeId, TaskId)>)
    requires Life(s) && CanKillJob(s, k, job, targets)
    ensures Life(DoKillJob(s, k, job, targets))
  {
    hide ConnOk, TaskOk, HistoryOk, RunOk, NodeOk;
    var s' := DoKillJob(s, k, job, targets);
    assert KillOk(s.placed, s'.kills[k]) by {
      forall i | 0 <= i < |targets|
        ensures targets[i].1 in s.placed && s.placed[targets[i].1].conn == s.core.nodes[targets[i].0].conn
      {
        assert targets[i] in KillTargets(s.core.nodes, job);
        AboutIndexed(s, targets[i].0, targets[i].1);
      }
    }
    hide KillOk;
    forall t | t in s'.placed ensures TaskOk(s', t) {
      assert TaskOk(s, t);
      SameTask(s, s', t);
    }
  }

  lemma SameTask(s: Sys, s': Sys, t: TaskId)
    requires TaskOk(s, t) && s'.conns == s.conns && s'.placed == s.placed && s'.runs == s.runs
    requires s'.core.nodes == s.core.nodes && s'.core.rows == s.core.rows && s'.core.events == s.core.events
    ensures TaskOk(s', t)
  {
  }

  lemma SendKillKeeps(s: Sys, k: nat)
    requires Life(s) && CanSendKill(s, k)
    ensures Life(DoSendKill(s, k))
  {
    hide ConnOk, TaskOk, HistoryOk, NodesOk, RunOk, ConnsOk;
    var s' := DoSendKill(s, k);
    assert KillOk(s.placed, s.kills[k]);
    var (c, u) := s.kills[k][0];
    assert KillOk(s.placed, s.kills[k][1..]);
    assert MailOk(s.placed, c, KillTask(u));
    hide KillOk;
    forall t | t in s'.placed ensures TaskOk(s', t) {
      assert TaskOk(s, t);
      KillPostKeepsTask(s, c, u, t);
      SameTask(Post(s, c, KillTask(u)), s', t);
    }
    PostKeepsConns(s, c, KillTask(u));
    PostKeepsNodes(s, c, KillTask(u));
    SameParts(Post(s, c, KillTask(u)), s');
  }

  lemma KillPostKeepsTask(s: Sys, c: nat, u: TaskId, t: TaskId)
    requires TaskOk(s, t) && c in s.conns
    ensures TaskOk(Post(s, c, KillTask(u)), t)
  {
    assert PlaceOk(s.runs, t, s.placed[t]);
    hide TaskIn;
    PostKeepsTask(s, c, KillTask(u), s.runs, t);
  }

  /** Leases play no part in the lifecycle. */
  lemma LeasesKeep(s: Sys, leases': map<LeaseId, Lease>)
    requires Life(s)
    ensures Life(s.(core := s.core.(leases := leases')))
  {
    hide KillOk, NodeOk, DispatchesOk, JobOwned, Collected, SentOk, InboxOk, TasksOk, TaskOk, ContOk;
    var s' := s.(core := s.core.(leases := leases'));
    forall t | t in s'.placed ensures TaskOk(s', t) {
      assert TaskOk(s, t);
      SameTask(s, s', t);
    }
    forall r | r in s'.runs ensures RunOk(s'.placed, s'.core, r, s'.runs[r]) {
      assert RunOk(s.placed, s.core, r, s.runs[r]);
    }
    forall c | c in s'.conns ensures ConnOk(s'.placed, s'.core, c, s'.conns[c]) {
      assert ConnOk(s.placed, s.core, c, s.conns[c]);
    }
  }

  lemma ClientKeepsLife(s: Sys, step: ClientStep, s': Sys)
    requires Life(s) && NextClient(s, step, s')
    ensures Life(s')
  {
    hide Life;
    match step
    case Subscribe(r) => SubscribeKeeps(s, r);
    case SendStart(r) => SendStartKeeps(s, r);
    case Follow(r) => FollowKeeps(s, r);
    case ReadEvent(r) => ReadEventKeepsLife(s, r);
    case FinishRun(r) => FinishKeeps(s, r);
    case Stop(r) => StopKeeps(s, r);
    case KillJob(k, job, targets) => KillJobKeeps(s, k, job, targets);
    case SendKill(k) => SendKillKeeps(s, k);
    case CreateLease(names, lease, id) => LeasesKeep(s, s'.core.leases);
    case ReleaseLease(id) => LeasesKeep(s, s'.core.leases);
  }
}
