/** `torchrun_request_parts`: the command line and the per-node environment of a torchrun job. */
module Torchrun {
  import opened Protocol
  import opened CoordinatorCore
  import opened PosixShell
  import opened ShellPrinter
  import opened Text

  // ---- The parts ----

  const RankVariable := "ML_NODE_RANK"

  /** The words of the format string with its arguments filled in, `userArgv` being one of them. */
  function Script(nnodes: nat, gpusPerNode: nat, masterAddr: string, masterPort: nat, userArgv: seq<string>): string {
    Join(ScriptParts(nnodes, gpusPerNode, masterAddr, masterPort) + [Join(Quoted(userArgv), " ")], " ")
  }

  function ScriptParts(nnodes: nat, gpusPerNode: nat, masterAddr: string, masterPort: nat): seq<string> {
    ["exec", "torchrun", "--nnodes", Decimal(nnodes), "--nproc-per-node", Decimal(gpusPerNode),
     "--node-rank", "\"$ML_NODE_RANK\"", "--master-addr", ShellQuote(masterAddr), "--master-port", Decimal(masterPort)]
  }

  function NodeEnv(rank: nat, nnodes: nat, gpusPerNode: nat, masterAddr: string, masterPort: nat): Env {
    map["ML_NODE_RANK" := Decimal(rank), "ML_NNODES" := Decimal(nnodes), "ML_GPUS_PER_NODE" := Decimal(gpusPerNode),
        "ML_MASTER_ADDR" := masterAddr, "ML_MASTER_PORT" := Decimal(masterPort)]
  }

  /** The text is the number in decimal. */
  predicate Denotes(text: string, n: nat) {
    AllDigits(text) && NumberOf(text) == n
  }

  predicate HoldsNumber(env: Env, name: string, n: nat) {
    name in env && Denotes(env[name], n)
  }

  /** The five variables of a torchrun task, and no other. */
  ghost predicate HasTorchrunVariables(
      env: Env, rank: nat, nnodes: nat, gpusPerNode: nat, masterAddr: string, masterPort: nat)
  {
    && HoldsNumber(env, "ML_NODE_RANK", rank) && HoldsNumber(env, "ML_NNODES", nnodes)
    && HoldsNumber(env, "ML_GPUS_PER_NODE", gpusPerNode) && HoldsNumber(env, "ML_MASTER_PORT", masterPort)
    && "ML_MASTER_ADDR" in env && env["ML_MASTER_ADDR"] == masterAddr
    && forall name :: name in env ==>
         name in ["ML_NODE_RANK", "ML_NNODES", "ML_GPUS_PER_NODE", "ML_MASTER_PORT", "ML_MASTER_ADDR"]
  }

  lemma NodeEnvVariables(rank: nat, nnodes: nat, gpusPerNode: nat, masterAddr: string, masterPort: nat)
    ensures HasTorchrunVariables(
              NodeEnv(rank, nnodes, gpusPerNode, masterAddr, masterPort), rank, nnodes, gpusPerNode, masterAddr,
              masterPort)
  {
    DecimalReads(rank);
    DecimalReads(nnodes);
    DecimalReads(gpusPerNode);
    DecimalReads(masterPort);
    hide Decimal, NumberOf;
  }

  /** The last position of `n`: a later entry of the same node writes over an earlier one. */
  function LastIndex(nodes: seq<NodeId>, n: NodeId): (i: nat)
    requires n in nodes
    ensures i < |nodes| && nodes[i] == n
    ensures forall j :: i < j < |nodes| ==> nodes[j] != n
  {
    var last := |nodes| - 1;
    if nodes[last] == n then last else LastIndex(nodes[..last], n)
  }

  method TorchrunRequestParts(
      nodes: seq<NodeId>, gpusPerNode: nat, masterAddr: string, masterPort: nat, userArgv: seq<string>)
    returns (argv: seq<string>, nodeEnv: map<NodeId, Env>)
    ensures var nnodes := if |nodes| > 1 then |nodes| else 1;
      && argv == ["sh", "-lc", Script(nnodes, gpusPerNode, masterAddr, masterPort, userArgv)]
      && (forall n :: n in nodeEnv <==> n in nodes)
      && (forall n :: n in nodes ==>
            nodeEnv[n] == NodeEnv(LastIndex(nodes, n), nnodes, gpusPerNode, masterAddr, masterPort))
      && (forall i :: 0 <= i < |nodes| && (forall j :: i < j < |nodes| ==> nodes[j] != nodes[i]) ==>
            HasTorchrunVariables(nodeEnv[nodes[i]], i, nnodes, gpusPerNode, masterAddr, masterPort))
  {
    var nnodes := if |nodes| > 1 then |nodes| else 1;
    var command := Script(nnodes, gpusPerNode, masterAddr, masterPort, userArgv);
    nodeEnv := map[];
    assert nodes[..0] == [];
    for rank := 0 to |nodes|
      invariant forall n :: n in nodeEnv <==> n in nodes[..rank]
      invariant forall n :: n in nodes[..rank] ==>
                  nodeEnv[n] == NodeEnv(LastIndex(nodes[..rank], n), nnodes, gpusPerNode, masterAddr, masterPort)
    {
      var env: Env := map[];
      env := env["ML_NODE_RANK" := Decimal(rank)];
      env := env["ML_NNODES" := Decimal(nnodes)];
      env := env["ML_GPUS_PER_NODE" := Decimal(gpusPerNode)];
      env := env["ML_MASTER_ADDR" := masterAddr];
      env := env["ML_MASTER_PORT" := Decimal(masterPort)];
      assert env == NodeEnv(rank, nnodes, gpusPerNode, masterAddr, masterPort);
      nodeEnv := nodeEnv[nodes[rank] := env];
      assert nodes[..rank + 1][..rank] == nodes[..rank];
    }
    assert nodes[..|nodes|] == nodes;
    argv := ["sh", "-lc", command];
    hide HasTorchrunVariables, NodeEnv;
    forall i | 0 <= i < |nodes| && (forall j :: i < j < |nodes| ==> nodes[j] != nodes[i])
      ensures HasTorchrunVariables(nodeEnv[nodes[i]], i, nnodes, gpusPerNode, masterAddr, masterPort)
    {
      assert LastIndex(nodes, nodes[i]) == i;
      NodeEnvVariables(i, nnodes, gpusPerNode, masterAddr, masterPort);
    }
  }

  // ---- What the script means ----

  /** What torchrun is started with. */
  function TorchrunArgv(
      nnodes: nat, gpusPerNode: nat, rank: string, masterAddr: string, masterPort: nat,
      userArgv: seq<string>): seq<string>
  {
    ["torchrun", "--nnodes", Decimal(nnodes), "--nproc-per-node", Decimal(gpusPerNode), "--node-rank", rank,
     "--master-addr", masterAddr, "--master-port", Decimal(masterPort)] + userArgv
  }

  /** Followed by a blank, `part` reads as the one word `word`. */
  ghost predicate ReadsAs(part: string, word: string, env: Env) {
    forall rest: string :: Unquoted(part + " " + rest, env, NoWord) == Before([Word(word)], Unquoted(rest, env, NoWord))
  }

  lemma PlainReads(w: string, env: Env)
    requires w != "" && forall i :: 0 <= i < |w| ==> Plain(w[i])
    ensures ReadsAs(w, w, env)
  {
    forall rest: string
      ensures Unquoted(w + " " + rest, env, NoWord) == Before([Word(w)], Unquoted(rest, env, NoWord))
    {
      PlainWord(w, rest, env);
    }
  }

  lemma QuoteReadsAs(value: string, env: Env)
    ensures ReadsAs(ShellQuote(value), value, env)
  {
    hide Unquoted, ShellQuote;
    forall rest: string
      ensures Unquoted(ShellQuote(value) + " " + rest, env, NoWord)
        == Before([Word(value)], Unquoted(rest, env, NoWord))
    {
      assert ShellQuote(value) + " " + rest == ShellQuote(value) + (" " + rest);
      WholeQuote(value, " " + rest, env);
      TakeBlank(rest, env, Part(value, true));
    }
  }

  /** The rank reads as the value of the variable, neither split nor expanded further. */
  lemma RankReads(env: Env)
    ensures ReadsAs("\"$ML_NODE_RANK\"", Value(env, RankVariable), env)
  {
    hide Unquoted, DoubleQuoted;
    var value := Value(env, RankVariable);
    forall rest: string
      ensures Unquoted("\"$ML_NODE_RANK\"" + " " + rest, env, NoWord)
        == Before([Word(value)], Unquoted(rest, env, NoWord))
    {
      var close := "\"" + (" " + rest);
      RankText(rest);
      OpenDouble("$" + RankVariable + close, env, NoWord);
      TakeParameter(RankVariable, close, env, "");
      assert "" + value == value;
      CloseDouble(" " + rest, env, value);
      TakeBlank(rest, env, Part(value, true));
    }
  }

  lemma RankText(rest: string)
    ensures "\"$ML_NODE_RANK\"" + " " + rest == "\"" + ("$" + RankVariable + ("\"" + (" " + rest)))
  {
    var dollar := "$" + RankVariable;
    assert "\"$ML_NODE_RANK\"" == "\"" + (dollar + "\"");
    assert "\"" + (dollar + "\"") + " " + rest == "\"" + (dollar + ("\"" + (" " + rest)));
  }

  lemma DecimalReadsAs(n: nat, env: Env)
    ensures ReadsAs(Decimal(n), Decimal(n), env)
  {
    hide ReadsAs;
    PlainReads(Decimal(n), env);
  }

  lemma {:induction false} PartsRead(parts: seq<string>, words: seq<string>, last: string, env: Env)
    requires |parts| == |words| && forall i :: 0 <= i < |parts| ==> ReadsAs(parts[i], words[i], env)
    ensures Unquoted(Join(parts + [last], " "), env, NoWord)
            == Before(WordTokens(words), Unquoted(last, env, NoWord))
  {
    hide Unquoted;
    var end := Unquoted(last, env, NoWord);
    if parts == [] {
      assert parts + [last] == [last];
      assert end.Some? ==> WordTokens(words) + end.value == end.value;
    } else {
      assert (parts + [last])[1..] == parts[1..] + [last];
      assert ReadsAs(parts[0], words[0], env);
      PartsRead(parts[1..], words[1..], last, env);
      BeforeTwice([Word(words[0])], WordTokens(words[1..]), end);
      assert [Word(words[0])] + WordTokens(words[1..]) == WordTokens(words);
    }
  }

  /** The script's words, the user's arguments aside. */
  function ScriptWords(nnodes: nat, gpusPerNode: nat, rank: string, masterAddr: string, masterPort: nat)
    : (w: seq<string>)
    ensures |w| == 12
  {
    ["exec"] + TorchrunArgv(nnodes, gpusPerNode, rank, masterAddr, masterPort, [])
  }

  lemma ScriptPartsRead(nnodes: nat, gpusPerNode: nat, masterAddr: string, masterPort: nat, env: Env, i: nat)
    requires i < |ScriptParts(nnodes, gpusPerNode, masterAddr, masterPort)|
    ensures ReadsAs(ScriptParts(nnodes, gpusPerNode, masterAddr, masterPort)[i],
                    ScriptWords(nnodes, gpusPerNode, Value(env, RankVariable), masterAddr, masterPort)[i], env)
  {
    hide ReadsAs, Decimal, ShellQuote, Value;
    PlainReads("exec", env);
    PlainReads("torchrun", env);
    PlainReads("--nnodes", env);
    DecimalReadsAs(nnodes, env);
    PlainReads("--nproc-per-node", env);
    DecimalReadsAs(gpusPerNode, env);
    PlainReads("--node-rank", env);
    RankReads(env);
    PlainReads("--master-addr", env);
    QuoteReadsAs(masterAddr, env);
    PlainReads("--master-port", env);
    DecimalReadsAs(masterPort, env);
  }

  lemma ScriptReads(nnodes: nat, gpusPerNode: nat, masterAddr: string, masterPort: nat, userArgv: seq<string>, env: Env)
    ensures Unquoted(Script(nnodes, gpusPerNode, masterAddr, masterPort, userArgv), env, NoWord)
            == Some(WordTokens(
                 ScriptWords(nnodes, gpusPerNode, Value(env, RankVariable), masterAddr, masterPort) + userArgv))
  {
    var rank := Value(env, RankVariable);
    var parts := ScriptParts(nnodes, gpusPerNode, masterAddr, masterPort);
    var words := ScriptWords(nnodes, gpusPerNode, rank, masterAddr, masterPort);
    var user := Join(Quoted(userArgv), " ");
    JoinReads(userArgv, "", env);
    assert user + "" == user && Unquoted("", env, NoWord) == Some([]);
    assert WordTokens(userArgv) + [] == WordTokens(userArgv);
    hide Unquoted, ReadsAs, ScriptParts, Value, Join;
    forall i | 0 <= i < |parts| ensures ReadsAs(parts[i], words[i], env) {
      ScriptPartsRead(nnodes, gpusPerNode, masterAddr, masterPort, env, i);
    }
    assert |parts| == |words| by { PartCount(nnodes, gpusPerNode, masterAddr, masterPort); }
    PartsRead(parts, words, user, env);
    assert WordTokens(words) + WordTokens(userArgv) == WordTokens(words + userArgv);
  }

  lemma PartCount(nnodes: nat, gpusPerNode: nat, masterAddr: string, masterPort: nat)
    ensures |ScriptParts(nnodes, gpusPerNode, masterAddr, masterPort)| == 12
  {
  }

  // ---- NUL ----

  lemma {:induction false} NulInJoin(parts: seq<string>)
    ensures '\0' in Join(parts, " ") <==> !NulFree(parts)
  {
    if parts != [] {
      NulInJoin(parts[1..]);
      assert NulFree(parts) <==> '\0' !in parts[0] && NulFree(parts[1..]) by {
        assert forall i :: 1 <= i < |parts| ==> parts[i] == parts[1..][i - 1];
      }
    }
  }

  lemma NoNulInDecimal(n: nat)
    ensures '\0' !in Decimal(n)
  {
    assert !Digit('\0');
  }

  lemma NulInScript(nnodes: nat, gpusPerNode: nat, masterAddr: string, masterPort: nat, userArgv: seq<string>)
    ensures '\0' in Script(nnodes, gpusPerNode, masterAddr, masterPort, userArgv)
            <==> '\0' in masterAddr || !NulFree(userArgv)
  {
    hide Join, Decimal, Escaped;
    var user := Join(Quoted(userArgv), " ");
    var parts := ScriptParts(nnodes, gpusPerNode, masterAddr, masterPort) + [user];
    NulInJoin(parts);
    NulInJoined(userArgv);
    NulInEscaped(masterAddr);
    NoNulInDecimal(nnodes);
    NoNulInDecimal(gpusPerNode);
    NoNulInDecimal(masterPort);
    assert parts[9] == ShellQuote(masterAddr) && parts[12] == user;
  }

  // ---- The job as a whole ----

  /** A run request made of the two parts. */
  predicate IsTorchrun(
      request: RunRequest, gpusPerNode: nat, masterAddr: string, masterPort: nat, userArgv: seq<string>)
  {
    var nodes := request.nodes;
    && nodes != []
    && request.argv == ["sh", "-lc", Script(|nodes|, gpusPerNode, masterAddr, masterPort, userArgv)]
    && forall n :: n in nodes ==>
         n in request.nodeEnv
         && request.nodeEnv[n] == NodeEnv(LastIndex(nodes, n), |nodes|, gpusPerNode, masterAddr, masterPort)
  }

  /** Under the environment the coordinator merges for a node, the script runs exactly torchrun with the number of
      nodes, that node's rank, the given address and port, and the user's arguments unchanged: exactly when no string
      in it holds a NUL. */
  lemma ScriptMeaning(
      request: RunRequest, gpusPerNode: nat, masterAddr: string, masterPort: nat, userArgv: seq<string>, n: NodeId)
    requires IsTorchrun(request, gpusPerNode, masterAddr, masterPort, userArgv) && n in request.nodes
    ensures ExecutedBy(request.argv[2], MergedEnv(request, n))
              == Some(TorchrunArgv(|request.nodes|, gpusPerNode, Decimal(LastIndex(request.nodes, n)), masterAddr,
                                   masterPort, userArgv))
            <==> '\0' !in masterAddr && NulFree(userArgv)
  {
    var env := MergedEnv(request, n);
    var rank := Decimal(LastIndex(request.nodes, n));
    assert Value(env, RankVariable) == rank;
    hide IsTorchrun, MergedEnv, NodeEnv;
    ScriptExecutes(|request.nodes|, gpusPerNode, rank, masterAddr, masterPort, userArgv, env);
  }

  lemma ScriptWordsAre(
      nnodes: nat, gpusPerNode: nat, rank: string, masterAddr: string, masterPort: nat, userArgv: seq<string>)
    ensures var words := ScriptWords(nnodes, gpusPerNode, rank, masterAddr, masterPort) + userArgv;
      && words[0] == "exec"
      && words[1..] == TorchrunArgv(nnodes, gpusPerNode, rank, masterAddr, masterPort, userArgv)
  {
    hide Decimal;
  }

  lemma ScriptExecutes(
      nnodes: nat, gpusPerNode: nat, rank: string, masterAddr: string, masterPort: nat, userArgv: seq<string>, env: Env)
    requires Value(env, RankVariable) == rank
    ensures ExecutedBy(Script(nnodes, gpusPerNode, masterAddr, masterPort, userArgv), env)
              == Some(TorchrunArgv(nnodes, gpusPerNode, rank, masterAddr, masterPort, userArgv))
            <==> '\0' !in masterAddr && NulFree(userArgv)
  {
    assert Parse([]) == Some(Command([], []));
    ScriptWordsAre(nnodes, gpusPerNode, rank, masterAddr, masterPort, userArgv);
    hide Decimal, Script, Unquoted, Parse, NulFree, Value, ScriptWords, TorchrunArgv, WordTokens;
    var words := ScriptWords(nnodes, gpusPerNode, rank, masterAddr, masterPort) + userArgv;
    NulInScript(nnodes, gpusPerNode, masterAddr, masterPort, userArgv);
    ScriptReads(nnodes, gpusPerNode, masterAddr, masterPort, userArgv, env);
    ParseWords(words, []);
    assert WordTokens(words) + [] == WordTokens(words) && words + [] == words;
  }

  /** The ranks number the positions 0, 1, ... of the node list exactly when no node is listed twice. */
  lemma RanksNumberNodesIff(nodes: seq<NodeId>)
    ensures (forall i :: 0 <= i < |nodes| ==> NumberOf(Decimal(LastIndex(nodes, nodes[i]))) == i) <==> Distinct(nodes)
  {
    forall i | 0 <= i < |nodes| ensures NumberOf(Decimal(LastIndex(nodes, nodes[i]))) == LastIndex(nodes, nodes[i]) {
      DecimalReads(LastIndex(nodes, nodes[i]));
    }
    hide NumberOf, Decimal;
    if !Distinct(nodes) {
      var i, j :| 0 <= i < j < |nodes| && nodes[i] == nodes[j];
      assert LastIndex(nodes, nodes[i]) == LastIndex(nodes, nodes[j]);
      assert NumberOf(Decimal(LastIndex(nodes, nodes[i]))) == NumberOf(Decimal(LastIndex(nodes, nodes[j])));
    }
  }

  /** Every task the coordinator dispatches for such a request runs torchrun with the rank of its own position, so
      different nodes get different ranks. */
  lemma DispatchedRanks(
      core: Core, request: RunRequest, job: JobId, ids: seq<TaskId>, clock: seq<Protocol.Time>,
      gpusPerNode: nat, masterAddr: string, masterPort: nat, userArgv: seq<string>, k: nat)
    requires IsTorchrun(request, gpusPerNode, masterAddr, masterPort, userArgv) && Distinct(request.nodes)
    requires '\0' !in masterAddr && NulFree(userArgv) && |request.nodes| <= |ids| == |clock|
    requires k < |PlaceAll(core, request, job, request.nodes, ids, clock).dispatch|
    ensures var spec := PlaceAll(core, request, job, request.nodes, ids, clock).dispatch[k].1;
      exists i :: 0 <= i < |request.nodes| && request.nodes[i] == spec.node
        && |spec.argv| == 3 && spec.argv[..2] == ["sh", "-lc"]
        && ExecutedBy(spec.argv[2], spec.env)
           == Some(TorchrunArgv(|request.nodes|, gpusPerNode, Decimal(i), masterAddr, masterPort, userArgv))
  {
    var spec := PlaceAll(core, request, job, request.nodes, ids, clock).dispatch[k].1;
    PlaceAligned(core, request, job, request.nodes, ids, clock);
    ConnectedAreSelected(core.nodes, request.nodes, spec.node);
    ScriptMeaning(request, gpusPerNode, masterAddr, masterPort, userArgv, spec.node);
    assert request.nodes[LastIndex(request.nodes, spec.node)] == spec.node;
  }

  lemma {:induction false} ConnectedDistinct(nodes: map<NodeId, Handle>, selected: seq<NodeId>)
    requires Distinct(selected)
    ensures Distinct(Connected(nodes, selected))
  {
    if selected != [] {
      var rest := selected[..|selected| - 1];
      ConnectedDistinct(nodes, rest);
      ConnectedAreSelected(nodes, rest, selected[|selected| - 1]);
    }
  }

  /** The arguments, read back: how many nodes, how many processes on each, which rank, where, and the user's own. */
  lemma TorchrunArguments(
      nnodes: nat, gpusPerNode: nat, rank: nat, masterAddr: string, masterPort: nat, userArgv: seq<string>)
    ensures var argv := TorchrunArgv(nnodes, gpusPerNode, Decimal(rank), masterAddr, masterPort, userArgv);
      && |argv| >= 11 && argv[0] == "torchrun" && argv[11..] == userArgv
      && argv[1] == "--nnodes" && Denotes(argv[2], nnodes)
      && argv[3] == "--nproc-per-node" && Denotes(argv[4], gpusPerNode)
      && argv[5] == "--node-rank" && Denotes(argv[6], rank)
      && argv[7] == "--master-addr" && argv[8] == masterAddr
      && argv[9] == "--master-port" && Denotes(argv[10], masterPort)
  {
    DecimalReads(rank);
    DecimalReads(nnodes);
    DecimalReads(gpusPerNode);
    DecimalReads(masterPort);
    hide Decimal, NumberOf;
  }

  lemma RankArgument(
      nnodes: nat, gpusPerNode: nat, rank: string, masterAddr: string, masterPort: nat, userArgv: seq<string>)
    ensures var argv := TorchrunArgv(nnodes, gpusPerNode, rank, masterAddr, masterPort, userArgv);
      |argv| > 6 && argv[5] == "--node-rank" && argv[6] == rank
  {
  }

  /** Two tasks of one such dispatch start torchrun with different rank arguments. */
  lemma DispatchedRanksDiffer(
      core: Core, request: RunRequest, job: JobId, ids: seq<TaskId>, clock: seq<Protocol.Time>,
      gpusPerNode: nat, masterAddr: string, masterPort: nat, userArgv: seq<string>, k: nat, m: nat)
    requires IsTorchrun(request, gpusPerNode, masterAddr, masterPort, userArgv) && Distinct(request.nodes)
    requires '\0' !in masterAddr && NulFree(userArgv) && |request.nodes| <= |ids| == |clock|
    requires k < m < |PlaceAll(core, request, job, request.nodes, ids, clock).dispatch|
    ensures var dispatch := PlaceAll(core, request, job, request.nodes, ids, clock).dispatch;
      && |dispatch[k].1.argv| == 3 && |dispatch[m].1.argv| == 3
      && var a := ExecutedBy(dispatch[k].1.argv[2], dispatch[k].1.env);
         var b := ExecutedBy(dispatch[m].1.argv[2], dispatch[m].1.env);
         && a.Some? && b.Some? && |a.value| > 6 && |b.value| > 6
         && a.value[5] == "--node-rank" && b.value[5] == "--node-rank" && a.value[6] != b.value[6]
  {
    hide Decimal, ExecutedBy, PlaceAll, TorchrunArgv, IsTorchrun, NulFree;
    var nodes := request.nodes;
    var dispatch := PlaceAll(core, request, job, nodes, ids, clock).dispatch;
    PlaceAligned(core, request, job, nodes, ids, clock);
    ConnectedDistinct(core.nodes, nodes);
    DispatchedRanks(core, request, job, ids, clock, gpusPerNode, masterAddr, masterPort, userArgv, k);
    DispatchedRanks(core, request, job, ids, clock, gpusPerNode, masterAddr, masterPort, userArgv, m);
    var i :| 0 <= i < |nodes| && nodes[i] == dispatch[k].1.node && ExecutedBy(dispatch[k].1.argv[2], dispatch[k].1.env)
      == Some(TorchrunArgv(|nodes|, gpusPerNode, Decimal(i), masterAddr, masterPort, userArgv));
    var j :| 0 <= j < |nodes| && nodes[j] == dispatch[m].1.node && ExecutedBy(dispatch[m].1.argv[2], dispatch[m].1.env)
      == Some(TorchrunArgv(|nodes|, gpusPerNode, Decimal(j), masterAddr, masterPort, userArgv));
    assert i != j;
    RankArgument(|nodes|, gpusPerNode, Decimal(i), masterAddr, masterPort, userArgv);
    RankArgument(|nodes|, gpusPerNode, Decimal(j), masterAddr, masterPort, userArgv);
    if Decimal(i) == Decimal(j) { DecimalInjective(i, j); }
  }
}
