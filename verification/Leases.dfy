/** What leases promise over every run of the whole system, whatever workers send and clients ask for. */
module Leases {
  import opened Protocol
  import opened CoordinatorCore
  import opened Cluster

  /** No lease is empty, and two leases that share a node are both shared ones. */
  ghost predicate LeasesOk(leases: map<LeaseId, Lease>) {
    && (forall l :: l in leases ==> leases[l].nodes != [])
    && (forall l, m :: l in leases && m in leases && l != m && Overlaps(leases[l].nodes, leases[m].nodes) ==>
          !leases[l].exclusive && !leases[m].exclusive)
  }

  lemma CreatedKeeps(core: Core, order: seq<NodeId>, request: LeaseRequest, id: LeaseId)
    requires LeasesOk(core.leases)
    ensures LeasesOk(LeaseCreated(core, order, request, id).leases)
  {
    var nodes := LeaseNodes(order, request);
    var leases' := LeaseCreated(core, order, request, id).leases;
    forall l, m | l in leases' && m in leases' && l != m && Overlaps(leases'[l].nodes, leases'[m].nodes)
      ensures !leases'[l].exclusive && !leases'[m].exclusive
    {
      if Grantable(core, nodes, request.exclusive) && m == id {
        assert Overlaps(nodes, core.leases[l].nodes);
      }
    }
  }

  lemma DispatchKeepsLeases(
      s: Sys, r: nat, request: RunRequest, job: JobId, selected: seq<NodeId>, upto: nat, ids: seq<TaskId>,
      clock: seq<Protocol.Time>)
    requires CanDispatch(s, r, request, job, selected, upto, ids, clock)
    ensures DoDispatch(s, r, request, job, selected, upto, ids, clock).core.leases == s.core.leases
  {
    PlaceAligned(s.core, request, job, selected[..upto], ids, clock);
  }

  lemma WireKeepsLeases(s: Sys, step: WireStep, s': Sys)
    requires NextWire(s, step, s')
    ensures s'.core.leases == s.core.leases
  {
  }

  lemma WorkKeepsLeases(s: Sys, c: nat, step: WorkStep, s': Sys)
    requires NextWork(s, c, step, s')
    ensures s'.core.leases == s.core.leases
  {
  }

  lemma ClientKeepsLeases(s: Sys, step: ClientStep, s': Sys)
    requires NextClient(s, step, s') && LeasesOk(s.core.leases)
    ensures LeasesOk(s'.core.leases)
  {
    match step
    case CreateLease(names, lease, id) => CreatedKeeps(s.core, names, lease, id);
    case _ =>
  }

  /** Lease exclusion in every state of every run. */
  lemma {:induction false} LeaseExclusion(states: seq<Sys>, steps: seq<Step>, i: nat)
    requires Execution(states, steps) && i <= |steps|
    ensures LeasesOk(states[i].core.leases)
  {
    if i > 0 {
      LeaseExclusion(states, steps, i - 1);
      var s, step, s' := states[i - 1], steps[i - 1], states[i];
      assert Next(s, step, states[i - 1 + 1]);
      hide NextWire, NextWork, NextClient;
      match step
      case Wire(wire) => WireKeepsLeases(s, wire, s');
      case Work(c, work) => WorkKeepsLeases(s, c, work, s');
      case Client(call) => ClientKeepsLeases(s, call, s');
      case Dispatch(r, request, job, selected, upto, ids, clock) =>
        DispatchKeepsLeases(s, r, request, job, selected, upto, ids, clock);
    }
  }

  /** A lease that names no nodes takes as many different connected nodes as it asks for, at least one, as far as there
      are any; it is refused for its nodes only when none is connected. */
  lemma UnnamedLeaseTakesConnected(core: Core, order: seq<NodeId>, request: LeaseRequest)
    requires IsNodeOrder(order, core.nodes) && request.nodes == []
    ensures var nodes := LeaseNodes(order, request);
      && Distinct(nodes)
      && (forall n :: n in nodes ==> n in core.nodes)
      && |nodes| <= |core.nodes|
      && (request.count.None? ==> |nodes| == |core.nodes|)
      && (request.count.Some? ==>
            var asked := if request.count.value < 1 then 1 else request.count.value;
            |nodes| == if asked <= |core.nodes| then asked else |core.nodes|)
      && (nodes == [] <==> core.nodes == map[])
  {
    NodeOrderSize(order, core.nodes);
    assert forall n :: n in LeaseNodes(order, request) ==> n in order;
    assert |core.nodes| == 0 <==> core.nodes == map[];
  }

  // ---- Exclusive leases add up ----

  ghost function NodesOf(lease: Lease): set<NodeId> {
    set n | n in lease.nodes
  }

  ghost function ExclusiveNodes(leases: map<LeaseId, Lease>): set<NodeId> {
    set l, n | l in leases && leases[l].exclusive && n in leases[l].nodes :: n
  }

  /** The number of different nodes of each exclusive lease, added up. */
  ghost function ExclusiveTotal(leases: map<LeaseId, Lease>): nat
    decreases leases.Keys
  {
    if leases == map[] then 0
    else
      var l :| l in leases;
      (if leases[l].exclusive then |NodesOf(leases[l])| else 0) + ExclusiveTotal(leases - {l})
  }

  lemma SplitExclusive(leases: map<LeaseId, Lease>, l: LeaseId, n: NodeId)
    requires l in leases
    ensures n in ExclusiveNodes(leases)
            <==> (leases[l].exclusive && n in NodesOf(leases[l])) || n in ExclusiveNodes(leases - {l})
  {
    if n in ExclusiveNodes(leases) {
      var m :| m in leases && leases[m].exclusive && n in leases[m].nodes;
      if m != l {
        assert (leases - {l})[m] == leases[m];
      }
    }
  }

  lemma {:induction false} ExclusiveLeasesAddUp(leases: map<LeaseId, Lease>)
    requires LeasesOk(leases)
    ensures ExclusiveTotal(leases) == |ExclusiveNodes(leases)|
    decreases leases.Keys
  {
    if leases == map[] {
      assert ExclusiveNodes(leases) == {};
    } else {
      var l :| l in leases
        && ExclusiveTotal(leases)
           == (if leases[l].exclusive then |NodesOf(leases[l])| else 0) + ExclusiveTotal(leases - {l});
      ExclusiveLeasesAddUp(leases - {l});
      SplitOff(leases, l);
    }
  }

  lemma SplitOff(leases: map<LeaseId, Lease>, l: LeaseId)
    requires LeasesOk(leases) && l in leases
    ensures |ExclusiveNodes(leases)|
            == (if leases[l].exclusive then |NodesOf(leases[l])| else 0) + |ExclusiveNodes(leases - {l})|
  {
    var mine := if leases[l].exclusive then NodesOf(leases[l]) else {};
    var others := ExclusiveNodes(leases - {l});
    assert ExclusiveNodes(leases) == mine + others by {
      forall n ensures n in ExclusiveNodes(leases) <==> n in mine + others {
        SplitExclusive(leases, l, n);
      }
    }
    forall n | n in mine ensures n !in others {
      NotTwiceExclusive(leases, l, n);
    }
    assert mine !! others;
  }

  lemma NotTwiceExclusive(leases: map<LeaseId, Lease>, l: LeaseId, n: NodeId)
    requires LeasesOk(leases) && l in leases && leases[l].exclusive && n in leases[l].nodes
    ensures n !in ExclusiveNodes(leases - {l})
  {
    assert forall m :: m in leases - {l} && n in leases[m].nodes ==> Overlaps(leases[l].nodes, leases[m].nodes);
  }

  /** In every state of every run the exclusive leases hold pairwise different nodes: their sizes add up to the size of
      their union. */
  lemma ExclusiveCapacity(states: seq<Sys>, steps: seq<Step>, i: nat)
    requires Execution(states, steps) && i <= |steps|
    ensures ExclusiveTotal(states[i].core.leases) == |ExclusiveNodes(states[i].core.leases)|
  {
    LeaseExclusion(states, steps, i);
    ExclusiveLeasesAddUp(states[i].core.leases);
  }

  // ---- What was asked for is what is held ----

  /** Step `k` grants lease `l`. */
  ghost predicate GrantedBy(states: seq<Sys>, steps: seq<Step>, k: nat, l: LeaseId)
    requires |states| == |steps| + 1 && k < |steps|
  {
    && steps[k].Client? && steps[k].call.CreateLease? && steps[k].call.id == l
    && l in states[k + 1].core.leases
  }

  /** Step `k` grants lease `l`, and no later step before `states[i]` releases it. */
  ghost predicate HeldSince(states: seq<Sys>, steps: seq<Step>, k: nat, i: nat, l: LeaseId)
    requires |states| == |steps| + 1
  {
    && k < i <= |steps| && GrantedBy(states, steps, k, l)
    && forall j :: k < j < i ==> steps[j] != Client(ReleaseLease(l))
  }

  lemma RunStep(states: seq<Sys>, steps: seq<Step>, k: nat)
    requires Execution(states, steps) && k < |steps|
    ensures |states| == |steps| + 1 && Next(states[k], steps[k], states[k + 1])
  {
    hide Next, Init;
  }

  lemma ClientLeaseStep(s: Sys, step: ClientStep, s': Sys, l: LeaseId)
    requires NextClient(s, step, s')
    ensures step == ReleaseLease(l) ==> l !in s'.core.leases
    ensures step.CreateLease? && step.id == l ==> l !in s.core.leases
    ensures step != ReleaseLease(l) && !(step.CreateLease? && step.id == l) ==>
              && (l in s'.core.leases <==> l in s.core.leases)
              && (l in s.core.leases ==> s'.core.leases[l] == s.core.leases[l])
  {
    hide Grantable, LeaseNodes, IsNodeOrder, Addressed, KillTargets, WaitLoop.WaitStep;
  }

  /** What a step does to lease `l`: a grant of it writes it, a release removes it, every other step leaves it. */
  lemma LeaseStep(s: Sys, step: Step, s': Sys, l: LeaseId)
    requires Next(s, step, s')
    ensures step == Client(ReleaseLease(l)) ==> l !in s'.core.leases
    ensures step.Client? && step.call.CreateLease? && step.call.id == l ==> l !in s.core.leases
    ensures step != Client(ReleaseLease(l)) && !(step.Client? && step.call.CreateLease? && step.call.id == l) ==>
              && (l in s'.core.leases <==> l in s.core.leases)
              && (l in s.core.leases ==> s'.core.leases[l] == s.core.leases[l])
  {
    hide NextWire, NextWork, NextClient;
    match step
    case Wire(wire) => WireKeepsLeases(s, wire, s');
    case Work(c, work) => WorkKeepsLeases(s, c, work, s');
    case Client(call) => ClientLeaseStep(s, call, s', l);
    case Dispatch(r, request, job, selected, upto, ids, clock) =>
      DispatchKeepsLeases(s, r, request, job, selected, upto, ids, clock);
  }

  /** A lease is there exactly from the step that grants it until its release. */
  lemma {:induction false} LeaseHeldIff(states: seq<Sys>, steps: seq<Step>, i: nat, l: LeaseId)
    requires Execution(states, steps) && i <= |steps|
    ensures |states| == |steps| + 1
    ensures l in states[i].core.leases <==> exists k: nat :: HeldSince(states, steps, k, i, l)
  {
    if i > 0 {
      var n := i - 1;
      LeaseHeldIff(states, steps, n, l);
      RunStep(states, steps, n);
      LeaseStep(states[n], steps[n], states[i], l);
      hide Next, Execution;
      if l in states[i].core.leases {
        if GrantedBy(states, steps, n, l) {
          assert HeldSince(states, steps, n, i, l);
        } else {
          var k: nat :| HeldSince(states, steps, k, n, l);
          assert HeldSince(states, steps, k, i, l);
        }
      }
      if k: nat :| HeldSince(states, steps, k, i, l) {
        if k < n {
          assert HeldSince(states, steps, k, n, l);
        }
      }
    }
  }

  lemma GrantStep(s: Sys, names: seq<NodeId>, request: LeaseRequest, id: LeaseId, s': Sys)
    requires NextClient(s, CreateLease(names, request, id), s')
    ensures IsNodeOrder(names, s.core.nodes) && id !in s.core.leases
    ensures id in s'.core.leases ==>
              && s'.core.leases[id].exclusive == request.exclusive
              && s'.core.leases[id].gpusPerNode == request.gpusPerNode
              && s'.core.leases[id].nodes == LeaseNodes(names, request)
    ensures id in s'.core.leases <==>
              && LeaseNodes(names, request) != []
              && (forall n :: n in LeaseNodes(names, request) ==> n in s.core.nodes)
              && (forall m, n ::
                    m in s.core.leases && n in LeaseNodes(names, request) && n in s.core.leases[m].nodes ==>
                      !s.core.leases[m].exclusive && !request.exclusive)
  {
    if forall m, n :: m in s.core.leases && n in LeaseNodes(names, request) && n in s.core.leases[m].nodes ==>
                    !s.core.leases[m].exclusive && !request.exclusive {
    } else {
      var m, n :| m in s.core.leases && n in LeaseNodes(names, request) && n in s.core.leases[m].nodes
        && (s.core.leases[m].exclusive || request.exclusive);
      assert Overlaps(LeaseNodes(names, request), s.core.leases[m].nodes);
    }
  }

  /** As long as a lease is held, it is what was asked for: the nodes named, or as many connected ones as
      `UnnamedLeaseTakesConnected` says, exclusive or not as the request said. */
  lemma {:induction false} HeldLeaseIsAsked(states: seq<Sys>, steps: seq<Step>, k: nat, i: nat, l: LeaseId)
    requires Execution(states, steps) && |states| == |steps| + 1 && HeldSince(states, steps, k, i, l)
    ensures l in states[i].core.leases
    ensures var request, lease := steps[k].call.lease, states[i].core.leases[l];
      && lease.exclusive == request.exclusive && lease.gpusPerNode == request.gpusPerNode
      && lease.nodes == LeaseNodes(steps[k].call.names, request)
      && (request.nodes != [] ==> lease.nodes == request.nodes)
      && IsNodeOrder(steps[k].call.names, states[k].core.nodes)
  {
    RunStep(states, steps, i - 1);
    hide Execution, LeaseNodes, IsNodeOrder, NextWire, NextWork, NextClient;
    if k == i - 1 {
      var call := steps[k].call;
      GrantStep(states[k], call.names, call.lease, l, states[i]);
    } else {
      hide Next;
      assert HeldSince(states, steps, k, i - 1, l);
      HeldLeaseIsAsked(states, steps, k, i - 1, l);
      LeaseHeldAlready(states, steps, k, i - 1, l);
      assert steps[i - 1] != Client(ReleaseLease(l));
      hide HeldSince;
      LeaseStep(states[i - 1], steps[i - 1], states[i], l);
    }
  }

  /** A lease that is held is not granted again. */
  lemma LeaseHeldAlready(states: seq<Sys>, steps: seq<Step>, k: nat, i: nat, l: LeaseId)
    requires |states| == |steps| + 1 && HeldSince(states, steps, k, i, l) && i < |steps|
    requires Next(states[i], steps[i], states[i + 1]) && l in states[i].core.leases
    ensures !(steps[i].Client? && steps[i].call.CreateLease? && steps[i].call.id == l)
  {
    LeaseStep(states[i], steps[i], states[i + 1], l);
  }

  /** From the step that grants an exclusive request until its release, no other lease holds any node it asked for. */
  lemma ExclusiveRequestHolds(
      states: seq<Sys>, steps: seq<Step>, k: nat, i: nat, l: LeaseId, m: LeaseId, n: NodeId)
    requires Execution(states, steps) && |states| == |steps| + 1 && HeldSince(states, steps, k, i, l)
    requires steps[k].call.lease.exclusive
    requires m in states[i].core.leases && m != l
    ensures n in LeaseNodes(steps[k].call.names, steps[k].call.lease) ==> n !in states[i].core.leases[m].nodes
    ensures n in steps[k].call.lease.nodes ==> n !in states[i].core.leases[m].nodes
  {
    HeldLeaseIsAsked(states, steps, k, i, l);
    LeaseExclusion(states, steps, i);
    hide Execution, HeldSince, LeaseNodes;
    var leases := states[i].core.leases;
    assert n in leases[l].nodes && n in leases[m].nodes ==> Overlaps(leases[l].nodes, leases[m].nodes);
  }

  /** A request is granted exactly when it comes to some nodes, all connected, none of which is held exclusively, or
      held at all if it asks to be exclusive; what is held is told from the requests. */
  lemma GrantedIff(states: seq<Sys>, steps: seq<Step>, k: nat)
    requires Execution(states, steps) && k < |steps| && |states| == |steps| + 1
    requires steps[k].Client? && steps[k].call.CreateLease?
    ensures var request, nodes := steps[k].call.lease, LeaseNodes(steps[k].call.names, steps[k].call.lease);
      GrantedBy(states, steps, k, steps[k].call.id) <==>
        && nodes != [] && (forall n :: n in nodes ==> n in states[k].core.nodes)
        && forall j: nat, m, n ::
             HeldSince(states, steps, j, k, m) && n in LeaseNodes(steps[j].call.names, steps[j].call.lease) ==>
               n in nodes ==> !steps[j].call.lease.exclusive && !request.exclusive
  {
    RunStep(states, steps, k);
    var CreateLease(names, request, id) := steps[k].call;
    GrantStep(states[k], names, request, id, states[k + 1]);
    forall m ensures m in states[k].core.leases <==> exists j: nat :: HeldSince(states, steps, j, k, m) {
      LeaseHeldIff(states, steps, k, m);
    }
    forall j: nat, m | HeldSince(states, steps, j, k, m)
      ensures m in states[k].core.leases
      ensures states[k].core.leases[m].exclusive == steps[j].call.lease.exclusive
      ensures states[k].core.leases[m].nodes == LeaseNodes(steps[j].call.names, steps[j].call.lease)
    {
      HeldLeaseIsAsked(states, steps, j, k, m);
    }
    hide Next, Execution, HeldSince, LeaseNodes;
  }

  // ---- Runs under a lease ----

  lemma EmptyLeaseRefuses(core: Core, request: RunRequest, order: seq<NodeId>, l: LeaseId)
    requires request.lease == Some(l) && request.nodes != []
    requires l in core.leases && core.leases[l].nodes == []
    ensures SelectNodes(core, request, order).Refused?
  {
    assert request.nodes[0] in request.nodes && request.nodes[0] !in core.leases[l].nodes;
  }

  /** A selection made under a lease stays inside it exactly when the lease is not empty (or nothing is connected to
      fall back to). */
  lemma SelectionInsideIff(core: Core, request: RunRequest, order: seq<NodeId>, l: LeaseId, selected: seq<NodeId>)
    requires request.lease == Some(l) && SelectNodes(core, request, order) == Selected(selected)
    ensures l in core.leases
    ensures (forall n :: n in selected ==> n in core.leases[l].nodes) <==> core.leases[l].nodes != [] || order == []
  {
    if core.leases[l].nodes == [] && order != [] {
      if request.nodes != [] {
        EmptyLeaseRefuses(core, request, order, l);
        assert false;
      }
      assert order[0] in selected;
    }
  }

  /** Whenever a run that names a lease is dispatched, in any run of the system, it is placed on nodes of that lease. */
  lemma LeasedRunsStayInside(states: seq<Sys>, steps: seq<Step>, i: nat, l: LeaseId, a: TaskAssignment)
    requires Execution(states, steps) && i < |steps|
    requires steps[i].Dispatch? && steps[i].request.lease == Some(l)
    ensures steps[i].run in states[i + 1].runs && l in states[i].core.leases
    ensures a in states[i + 1].runs[steps[i].run].assignments ==> a.node in states[i].core.leases[l].nodes
  {
    LeaseExclusion(states, steps, i);
    assert Next(states[i], steps[i], states[i + 1]);
    var Dispatch(r, request, job, selected, upto, ids, clock) := steps[i];
    var core := states[i].core;
    var order :| IsNodeOrder(order, core.nodes) && SelectNodes(core, request, order) == Selected(selected);
    SelectionInsideIff(core, request, order, l, selected);
    PlaceAligned(core, request, job, selected[..upto], ids, clock);
    if a in states[i + 1].runs[r].assignments {
      var k :| 0 <= k < |states[i + 1].runs[r].assignments| && a == states[i + 1].runs[r].assignments[k];
      ConnectedAreSelected(core.nodes, selected[..upto], a.node);
    }
  }
}
