/** `build_job_diagnosis`: the recent error lines of a job and hints drawn from its log. */
module Diagnosis {
  import opened Protocol
  import opened JobStore
  import opened Sequences
  import opened Text

  /** The hints, in the order they are tried. */
  datatype Hint =
    | CudaOom
    | Nccl
    | Disk
    | Permission
    | PythonDependency
    | CommandLookup
    | RuntimeTimeout
    | Network
    | SomeTaskFailed
    | StillRunning
    | NoPattern

  datatype JobDiagnosis = JobDiagnosis(
    job: JobId, status: Status, hints: seq<Hint>, recentErrors: seq<LogLine>, tasks: seq<TaskSummary>)

  const ErrorPatterns := [
    "error", "exception", "traceback", "failed", "killed", "out of memory", "no space left", "permission denied",
    "module not found", "command not found", "nccl", "cuda"]

  predicate IsError(line: LogLine) {
    || line.stream.Stderr? || line.stream.System?
    || exists p :: p in ErrorPatterns && Contains(Lower(line.line), p)
  }

  function ErrorLines(logs: seq<LogLine>): seq<LogLine> {
    if logs == [] then []
    else (if IsError(logs[0]) then [logs[0]] else []) + ErrorLines(logs[1..])
  }

  /** The line itself when it is an error. */
  function ErrorOnly(line: LogLine): seq<LogLine> {
    if IsError(line) then [line] else []
  }

  lemma ErrorLinesCons(line: LogLine, rest: seq<LogLine>)
    ensures ErrorLines([line] + rest) == ErrorOnly(line) + ErrorLines(rest)
  {
    hide IsError;
    assert ([line] + rest)[1..] == rest;
  }

  lemma NoErrorLines()
    ensures ErrorLines([]) == []
  {
  }

  lemma {:induction false} ErrorLinesSplit(a: seq<LogLine>, b: seq<LogLine>)
    ensures ErrorLines(a + b) == ErrorLines(a) + ErrorLines(b)
  {
    hide ErrorLines, ErrorOnly, IsError;
    if a == [] {
      NoErrorLines();
      assert a + b == b;
    } else {
      assert a + b == [a[0]] + (a[1..] + b) && a == [a[0]] + a[1..];
      ErrorLinesCons(a[0], a[1..] + b);
      ErrorLinesCons(a[0], a[1..]);
      ErrorLinesSplit(a[1..], b);
      assert ErrorOnly(a[0]) + (ErrorLines(a[1..]) + ErrorLines(b))
          == ErrorOnly(a[0]) + ErrorLines(a[1..]) + ErrorLines(b);
    }
  }

  // ---- Which lines these are ----

  /** The line came from stderr or from the system, or its text shows an error, in any case. */
  predicate ShowsError(line: LogLine) {
    || line.stream.Stderr? || line.stream.System?
    || ContainsInAnyCase(line.line, "error") || ContainsInAnyCase(line.line, "exception")
    || ContainsInAnyCase(line.line, "traceback") || ContainsInAnyCase(line.line, "failed")
    || ContainsInAnyCase(line.line, "killed") || ContainsInAnyCase(line.line, "out of memory")
    || ContainsInAnyCase(line.line, "no space left") || ContainsInAnyCase(line.line, "permission denied")
    || ContainsInAnyCase(line.line, "module not found") || ContainsInAnyCase(line.line, "command not found")
    || ContainsInAnyCase(line.line, "nccl") || ContainsInAnyCase(line.line, "cuda")
  }

  lemma IsErrorIff(line: LogLine)
    ensures IsError(line) <==> ShowsError(line)
  {
    forall i | 0 <= i < |ErrorPatterns|
      ensures Contains(Lower(line.line), ErrorPatterns[i]) <==> ContainsInAnyCase(line.line, ErrorPatterns[i])
    {
      LowerSearchIff(line.line, ErrorPatterns[i]);
    }
    hide Contains, ContainsInAnyCase, Lower;
    assert ErrorPatterns[0] == "error" && ErrorPatterns[1] == "exception" && ErrorPatterns[2] == "traceback"
        && ErrorPatterns[3] == "failed" && ErrorPatterns[4] == "killed" && ErrorPatterns[5] == "out of memory"
        && ErrorPatterns[6] == "no space left" && ErrorPatterns[7] == "permission denied"
        && ErrorPatterns[8] == "module not found" && ErrorPatterns[9] == "command not found"
        && ErrorPatterns[10] == "nccl" && ErrorPatterns[11] == "cuda";
  }

  function ErrorFlags(logs: seq<LogLine>): seq<bool> {
    seq(|logs|, i requires 0 <= i < |logs| => ShowsError(logs[i]))
  }

  lemma {:induction false} ErrorPositions(logs: seq<LogLine>) returns (ks: seq<nat>)
    ensures Picks(ErrorLines(logs), logs, ErrorFlags(logs), ks)
  {
    hide Picks, ErrorLines, IsError, ShowsError;
    if logs == [] {
      NoErrorLines();
      PicksNothing<LogLine>();
      ks := [];
      assert ErrorFlags(logs) == [];
    } else {
      var rest := logs[1..];
      ErrorLinesCons(logs[0], rest);
      IsErrorIff(logs[0]);
      var shows := ShowsError(logs[0]);
      var later := ErrorPositions(rest);
      PicksFirst(ErrorLines(rest), logs[0], rest, shows, ErrorFlags(rest), later);
      assert logs == [logs[0]] + rest && ErrorFlags(logs) == [shows] + ErrorFlags(rest);
      ks := (if shows then [0] else []) + Shifted(later);
    }
  }

  /** `recent` are the lines at `ks`, all of which show errors; such lines are left out only when there are more than
      twenty, and then only ones before all of those. */
  predicate RecentAt(recent: seq<LogLine>, logs: seq<LogLine>, ks: seq<nat>) {
    && Increasing(ks, |logs|) && |recent| == |ks| <= 20
    && (forall i :: 0 <= i < |ks| ==> recent[i] == logs[ks[i]] && ShowsError(logs[ks[i]]))
    && (forall k :: 0 <= k < |logs| && ShowsError(logs[k]) && k !in ks ==> |ks| == 20 && k < ks[0])
  }

  ghost predicate AreRecentErrors(recent: seq<LogLine>, logs: seq<LogLine>) {
    exists ks: seq<nat> :: RecentAt(recent, logs, ks)
  }

  lemma LastErrorsAreRecent(logs: seq<LogLine>)
    ensures AreRecentErrors(LastN(ErrorLines(logs), 20), logs)
  {
    hide ErrorLines, ShowsError;
    var all := ErrorPositions(logs);
    var cut := if 20 <= |all| then |all| - 20 else 0;
    var ks := all[cut..];
    LastPicks(all, |logs|, cut);
    hide Increasing;
    forall k: nat | k < |logs| ensures k in all <==> ShowsError(logs[k]) {
      assert ErrorFlags(logs)[k] == ShowsError(logs[k]);
    }
    hide ErrorFlags;
    assert LastN(ErrorLines(logs), 20) == ErrorLines(logs)[cut..];
    assert RecentAt(LastN(ErrorLines(logs), 20), logs, ks);
  }

  lemma {:induction false} ReversedMore<T>(s: seq<T>, x: T)
    ensures Reversed(s + [x]) == [x] + Reversed(s)
  {
    if s == [] {
      assert s + [x] == [x];
    } else {
      assert (s + [x])[1..] == s[1..] + [x];
      ReversedMore(s[1..], x);
    }
  }

  /** The scan from the newest line backwards, stopping at twenty errors. */
  method RecentErrors(logs: seq<LogLine>) returns (recent: seq<LogLine>)
    ensures recent == LastN(ErrorLines(logs), 20)
    ensures AreRecentErrors(recent, logs)
  {
    recent := [];
    var i := |logs|;
    while i > 0
      invariant 0 <= i <= |logs| && |recent| < 20
      invariant Reversed(recent) == ErrorLines(logs[i..])
    {
      i := i - 1;
      assert logs[i..][1..] == logs[i + 1..];
      if IsError(logs[i]) {
        ReversedMore(recent, logs[i]);
        recent := recent + [logs[i]];
      }
      if |recent| >= 20 {
        break;
      }
    }
    ReversedLength(recent);
    ErrorLinesSplit(logs[..i], logs[i..]);
    assert logs[..i] + logs[i..] == logs;
    if i == 0 { assert logs[i..] == logs; }
    recent := Reversed(recent);
    LastErrorsAreRecent(logs);
  }

  // ---- Hints ----

  /** Some line of the log mentions `pattern`, in any case. */
  predicate Mentions(logs: seq<LogLine>, pattern: string) {
    exists k :: 0 <= k < |logs| && Contains(Lower(logs[k].line), pattern)
  }

  /** What the text of the log, line by line, calls for. */
  predicate TextHint(logs: seq<LogLine>, hint: Hint) {
    match hint
    case CudaOom => Mentions(logs, "out of memory")
    case Nccl => Mentions(logs, "nccl")
    case Disk => Mentions(logs, "no space left") || Mentions(logs, "disk quota")
    case Permission => Mentions(logs, "permission denied")
    case PythonDependency => Mentions(logs, "module not found") || Mentions(logs, "no module named")
    case CommandLookup => Mentions(logs, "command not found") || Mentions(logs, ": not found")
    case RuntimeTimeout => Mentions(logs, "task timed out after")
    case Network => !Mentions(logs, "task timed out after")
                    && (Mentions(logs, "connection refused") || Mentions(logs, "timed out"))
    case _ => false
  }

  predicate SaysNothing(logs: seq<LogLine>) {
    && !TextHint(logs, CudaOom) && !TextHint(logs, Nccl) && !TextHint(logs, Disk) && !TextHint(logs, Permission)
    && !TextHint(logs, PythonDependency) && !TextHint(logs, CommandLookup) && !TextHint(logs, RuntimeTimeout)
    && !TextHint(logs, Network)
  }

  predicate AnyStatus(tasks: seq<TaskSummary>, unfinished: bool) {
    exists k :: 0 <= k < |tasks| &&
      if unfinished then Unfinished(tasks[k].row.status) else tasks[k].row.status.Failed?
  }

  predicate Calls(logs: seq<LogLine>, tasks: seq<TaskSummary>, hint: Hint) {
    match hint
    case SomeTaskFailed => SaysNothing(logs) && AnyStatus(tasks, false)
    case StillRunning => SaysNothing(logs) && !AnyStatus(tasks, false) && AnyStatus(tasks, true)
    case NoPattern => SaysNothing(logs) && !AnyStatus(tasks, false) && !AnyStatus(tasks, true)
    case _ => TextHint(logs, hint)
  }

  function Order(hint: Hint): nat {
    match hint
    case CudaOom => 0
    case Nccl => 1
    case Disk => 2
    case Permission => 3
    case PythonDependency => 4
    case CommandLookup => 5
    case RuntimeTimeout => 6
    case Network => 7
    case SomeTaskFailed => 8
    case StillRunning => 9
    case NoPattern => 10
  }

  /** `hints` are those below `upto` that are called for, each once and in order. */
  ghost predicate HintsUpTo(logs: seq<LogLine>, tasks: seq<TaskSummary>, hints: seq<Hint>, upto: nat) {
    && (forall h :: h in hints <==> Order(h) < upto && Calls(logs, tasks, h))
    && (forall i, j :: 0 <= i < j < |hints| ==> Order(hints[i]) < Order(hints[j]))
  }

  function LowerLines(logs: seq<LogLine>): seq<string> {
    seq(|logs|, i requires 0 <= i < |logs| => Lower(logs[i].line))
  }

  lemma TextMentions(logs: seq<LogLine>, pattern: string)
    requires pattern != "" && '\n' !in pattern
    ensures Contains(Join(LowerLines(logs), "\n"), pattern) <==> Mentions(logs, pattern)
  {
    JoinedSearch(LowerLines(logs), pattern);
    if Mentions(logs, pattern) {
      var k :| 0 <= k < |logs| && Contains(Lower(logs[k].line), pattern);
      assert Contains(LowerLines(logs)[k], pattern);
    }
    if SomeContains(LowerLines(logs), pattern) {
      var k :| 0 <= k < |logs| && Contains(LowerLines(logs)[k], pattern);
      assert Contains(Lower(logs[k].line), pattern);
    }
  }

  /** A line mentions a pattern when it holds it in any case. */
  lemma MentionsIff(logs: seq<LogLine>, pattern: string)
    requires Small(pattern)
    ensures Mentions(logs, pattern) <==> exists k :: 0 <= k < |logs| && ContainsInAnyCase(logs[k].line, pattern)
  {
    forall k | 0 <= k < |logs|
      ensures Contains(Lower(logs[k].line), pattern) <==> ContainsInAnyCase(logs[k].line, pattern)
    {
      LowerSearchIff(logs[k].line, pattern);
    }
    hide Contains, ContainsInAnyCase;
  }

  lemma CudaOomIsOom(text: string)
    requires Contains(text, "cuda out of memory")
    ensures Contains(text, "out of memory")
  {
    var cuda, oom := "cuda out of memory", "out of memory";
    var i :| 0 <= i <= |text| && OccursAt(text, cuda, i);
    assert cuda[5..] == oom;
    assert text[i + 5..i + |cuda|] == text[i..i + |cuda|][5..];
    assert OccursAt(text, oom, i + 5);
  }

  lemma NoHints(logs: seq<LogLine>, tasks: seq<TaskSummary>)
    ensures HintsUpTo(logs, tasks, [], 0)
  {
  }

  /** `if condition { hints.push(hint) }`. */
  function PushIf(hints: seq<Hint>, condition: bool, hint: Hint): seq<Hint> {
    if condition then hints + [hint] else hints
  }

  lemma AddHint(logs: seq<LogLine>, tasks: seq<TaskSummary>, hints: seq<Hint>, hint: Hint)
    requires HintsUpTo(logs, tasks, hints, Order(hint))
    ensures HintsUpTo(logs, tasks, PushIf(hints, Calls(logs, tasks, hint), hint), Order(hint) + 1)
  {
    hide Calls;
    var hints' := PushIf(hints, Calls(logs, tasks, hint), hint);
    forall h ensures h in hints' <==> Order(h) < Order(hint) + 1 && Calls(logs, tasks, h) {
      assert Order(h) == Order(hint) ==> h == hint;
      assert h in hints + [hint] <==> h in hints || h == hint;
    }
    assert forall h :: h in hints ==> Order(h) < Order(hint);
  }

  lemma FindsCudaOom(logs: seq<LogLine>, text: string)
    requires text == Join(LowerLines(logs), "\n")
    ensures TextHint(logs, CudaOom) <==> Contains(text, "out of memory") || Contains(text, "cuda out of memory")
  {
    hide Contains, Join, LowerLines, Mentions;
    TextMentions(logs, "out of memory");
    if Contains(text, "cuda out of memory") { CudaOomIsOom(text); }
  }

  lemma FindsNccl(logs: seq<LogLine>, text: string)
    requires text == Join(LowerLines(logs), "\n")
    ensures TextHint(logs, Nccl) <==> Contains(text, "nccl")
  {
    hide Contains, Join, LowerLines, Mentions;
    TextMentions(logs, "nccl");
  }

  lemma FindsDisk(logs: seq<LogLine>, text: string)
    requires text == Join(LowerLines(logs), "\n")
    ensures TextHint(logs, Disk) <==> Contains(text, "no space left") || Contains(text, "disk quota")
  {
    hide Contains, Join, LowerLines, Mentions;
    TextMentions(logs, "no space left");
    TextMentions(logs, "disk quota");
  }

  lemma FindsPermission(logs: seq<LogLine>, text: string)
    requires text == Join(LowerLines(logs), "\n")
    ensures TextHint(logs, Permission) <==> Contains(text, "permission denied")
  {
    hide Contains, Join, LowerLines, Mentions;
    TextMentions(logs, "permission denied");
  }

  lemma FindsPythonDependency(logs: seq<LogLine>, text: string)
    requires text == Join(LowerLines(logs), "\n")
    ensures TextHint(logs, PythonDependency)
            <==> Contains(text, "module not found") || Contains(text, "no module named")
  {
    hide Contains, Join, LowerLines, Mentions;
    TextMentions(logs, "module not found");
    TextMentions(logs, "no module named");
  }

  lemma FindsCommandLookup(logs: seq<LogLine>, text: string)
    requires text == Join(LowerLines(logs), "\n")
    ensures TextHint(logs, CommandLookup) <==> Contains(text, "command not found") || Contains(text, ": not found")
  {
    hide Contains, Join, LowerLines, Mentions;
    TextMentions(logs, "command not found");
    TextMentions(logs, ": not found");
  }

  lemma FindsRuntimeTimeout(logs: seq<LogLine>, text: string)
    requires text == Join(LowerLines(logs), "\n")
    ensures TextHint(logs, RuntimeTimeout) <==> Contains(text, "task timed out after")
  {
    hide Contains, Join, LowerLines, Mentions;
    TextMentions(logs, "task timed out after");
  }

  lemma FindsNetwork(logs: seq<LogLine>, text: string)
    requires text == Join(LowerLines(logs), "\n")
    ensures TextHint(logs, Network)
            <==> !Contains(text, "task timed out after")
                 && (Contains(text, "connection refused") || Contains(text, "timed out"))
  {
    hide Contains, Join, LowerLines, Mentions;
    TextMentions(logs, "task timed out after");
    TextMentions(logs, "connection refused");
    TextMentions(logs, "timed out");
  }

  method TextHints(logs: seq<LogLine>, ghost tasks: seq<TaskSummary>) returns (hints: seq<Hint>)
    ensures HintsUpTo(logs, tasks, hints, 8)
  {
    hide Contains, Join, LowerLines, Mentions, HintsUpTo, PushIf, TextHint;
    var text := Join(LowerLines(logs), "\n");
    hints := [];
    NoHints(logs, tasks);
    FindsCudaOom(logs, text);
    AddHint(logs, tasks, hints, CudaOom);
    hints := PushIf(hints, Contains(text, "out of memory") || Contains(text, "cuda out of memory"), CudaOom);
    FindsNccl(logs, text);
    AddHint(logs, tasks, hints, Nccl);
    hints := PushIf(hints, Contains(text, "nccl"), Nccl);
    FindsDisk(logs, text);
    AddHint(logs, tasks, hints, Disk);
    hints := PushIf(hints, Contains(text, "no space left") || Contains(text, "disk quota"), Disk);
    FindsPermission(logs, text);
    AddHint(logs, tasks, hints, Permission);
    hints := PushIf(hints, Contains(text, "permission denied"), Permission);
    FindsPythonDependency(logs, text);
    AddHint(logs, tasks, hints, PythonDependency);
    hints := PushIf(hints, Contains(text, "module not found") || Contains(text, "no module named"), PythonDependency);
    FindsCommandLookup(logs, text);
    AddHint(logs, tasks, hints, CommandLookup);
    hints := PushIf(hints, Contains(text, "command not found") || Contains(text, ": not found"), CommandLookup);
    var timeout := Contains(text, "task timed out after");
    FindsRuntimeTimeout(logs, text);
    AddHint(logs, tasks, hints, RuntimeTimeout);
    hints := PushIf(hints, timeout, RuntimeTimeout);
    FindsNetwork(logs, text);
    AddHint(logs, tasks, hints, Network);
    hints := PushIf(hints, !timeout && (Contains(text, "connection refused") || Contains(text, "timed out")), Network);
  }

  lemma EmptyIff(logs: seq<LogLine>, tasks: seq<TaskSummary>, hints: seq<Hint>, upto: nat)
    requires HintsUpTo(logs, tasks, hints, upto)
    ensures upto == 8 ==> (hints == [] <==> SaysNothing(logs))
    ensures upto == 9 ==> (hints == [] <==> SaysNothing(logs) && !AnyStatus(tasks, false))
    ensures upto == 10 ==> (hints == [] <==> SaysNothing(logs) && !AnyStatus(tasks, false) && !AnyStatus(tasks, true))
    ensures upto == 11 ==> hints != []
  {
    hide Mentions, AnyStatus;
    if hints != [] {
      assert hints[0] in hints;
    } else {
      assert CudaOom !in hints && Nccl !in hints && Disk !in hints && Permission !in hints && PythonDependency !in hints
          && CommandLookup !in hints && RuntimeTimeout !in hints && Network !in hints
          && SomeTaskFailed !in hints && StillRunning !in hints && NoPattern !in hints;
    }
  }

  method BuildJobDiagnosis(job: JobSummary, logs: seq<LogLine>) returns (d: JobDiagnosis)
    ensures d.job == job.job && d.status == job.status && d.tasks == job.tasks
    ensures d.recentErrors == LastN(ErrorLines(logs), 20) && AreRecentErrors(d.recentErrors, logs)
    ensures HintsUpTo(logs, job.tasks, d.hints, 11) && d.hints != []
  {
    hide HintsUpTo, PushIf, TextHint, SaysNothing, AnyStatus, ErrorLines;
    var recent := RecentErrors(logs);
    var hints := TextHints(logs, job.tasks);
    var failed, running := AnyStatus(job.tasks, false), AnyStatus(job.tasks, true);
    EmptyIff(logs, job.tasks, hints, 8);
    AddHint(logs, job.tasks, hints, SomeTaskFailed);
    hints := PushIf(hints, hints == [] && failed, SomeTaskFailed);
    EmptyIff(logs, job.tasks, hints, 9);
    AddHint(logs, job.tasks, hints, StillRunning);
    hints := PushIf(hints, hints == [] && running, StillRunning);
    EmptyIff(logs, job.tasks, hints, 10);
    AddHint(logs, job.tasks, hints, NoPattern);
    hints := PushIf(hints, hints == [], NoPattern);
    EmptyIff(logs, job.tasks, hints, 11);
    d := JobDiagnosis(job.job, job.status, hints, recent, job.tasks);
  }

  // ---- The window ----

  method DiagnoseJob(store: SqliteJobStore, job: JobId, lines: nat, newId: JobId)
    returns (d: Option<JobDiagnosis>, ghost window: seq<LogLine>)
    ensures d.None? <==> RowsOf(store.tasks, job) == {}
    ensures IsTail(window, store.logs, job, if lines < 1 then 1 else lines)
    ensures window == LastN(OfJob(store.logs, job), if lines < 1 then 1 else lines)
    ensures d.Some? ==>
              && d.value.job == job && d.value.status == JobStatus(store.tasks, job)
              && ListsJob(store.tasks, job, d.value.tasks)
              && d.value.recentErrors == LastN(ErrorLines(window), 20)
              && AreRecentErrors(d.value.recentErrors, window)
              && HintsUpTo(window, d.value.tasks, d.value.hints, 11) && d.value.hints != []
  {
    hide IsTail, AreRecentErrors, HintsUpTo;
    window := TailLogs(store.logs, job, if lines < 1 then 1 else lines);
    TailIsSuffix(store.logs, job, if lines < 1 then 1 else lines);
    TailLogsAreLast(store.logs, job, if lines < 1 then 1 else lines);
    var found := store.GetJob(job, newId);
    if found.None? {
      d := None;
      return;
    }
    var logs := TailLogs(store.logs, job, if lines < 1 then 1 else lines);
    var diagnosis := BuildJobDiagnosis(found.value, logs);
    d := Some(diagnosis);
  }

  /** Looking at more lines keeps the errors already found: they are the last ones of the longer list. */
  lemma WiderWindowKeepsErrors(logs: seq<LogLine>, job: JobId, fewer: nat, more: nat)
    requires fewer <= more
    ensures var narrow := LastN(ErrorLines(TailLogs(logs, job, fewer)), 20);
      var wide := LastN(ErrorLines(TailLogs(logs, job, more)), 20);
      |narrow| <= |wide| && narrow == LastN(wide, |narrow|)
  {
    SmallerTailIsSuffix(logs, job, fewer, more);
    var wide := TailLogs(logs, job, more);
    var cut := if fewer <= |wide| then |wide| - fewer else 0;
    assert wide == wide[..cut] + wide[cut..];
    assert LastN(wide, fewer) == wide[cut..];
    ErrorLinesSplit(wide[..cut], wide[cut..]);
  }
}
