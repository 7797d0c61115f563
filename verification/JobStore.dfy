/** The SQL job store: the `tasks` table as a map keyed by its primary key, `task_logs` as a sequence in row order. */
module JobStore {
  import opened Protocol
  import opened Sequences

  datatype Status = Queued | Running | Succeeded | Failed

  predicate Unfinished(status: Status) {
    status.Queued? || status.Running?
  }

  datatype Row = Row(
    job: JobId,
    node: NodeId,
    status: Status,
    created: Option<Time>,
    started: Option<Time>,
    exited: Option<Time>,
    exitCode: Option<int>)

  type Rows = map<TaskId, Row>

  function Coalesce<T>(a: Option<T>, b: Option<T>): Option<T> {
    if a.Some? then a else b
  }

  function StatusOf(e: TaskExited): Status {
    if e.success then Succeeded else Failed
  }

  // The three upserts, as functions from table to table.

  function Dispatched(rows: Rows, job: JobId, task: TaskId, node: NodeId, now: Time): Rows {
    rows[task :=
      if task in rows then
        rows[task].(job := job, node := node, status := Queued, created := Coalesce(rows[task].created, Some(now)))
      else
        Row(job, node, Queued, Some(now), None, None, None)]
  }

  function RowStarted(rows: Rows, e: TaskStarted): Rows {
    rows[e.task :=
      if e.task in rows then
        rows[e.task].(status := Running, created := Coalesce(rows[e.task].created, Some(e.timestamp)),
                      started := Some(e.timestamp))
      else
        Row(e.job, e.node, Running, Some(e.timestamp), Some(e.timestamp), None, None)]
  }

  function RowExited(rows: Rows, e: TaskExited): Rows {
    rows[e.task :=
      if e.task in rows then
        rows[e.task].(status := StatusOf(e), exited := Some(e.timestamp), exitCode := e.exitCode)
      else
        Row(e.job, e.node, StatusOf(e), Some(e.timestamp), None, Some(e.timestamp), e.exitCode)]
  }

  // ---- Row laws over every sequence of record calls ----

  datatype Record =
    | RDispatched(job: JobId, task: TaskId, node: NodeId, at: Time)
    | RStarted(start: TaskStarted)
    | RExited(exit: TaskExited)

  function Subject(r: Record): TaskId {
    match r
    case RDispatched(_, task, _, _) => task
    case RStarted(e) => e.task
    case RExited(e) => e.task
  }

  function At(r: Record): Time {
    match r
    case RDispatched(_, _, _, at) => at
    case RStarted(e) => e.timestamp
    case RExited(e) => e.timestamp
  }

  function Apply(rows: Rows, r: Record): Rows {
    match r
    case RDispatched(job, task, node, at) => Dispatched(rows, job, task, node, at)
    case RStarted(e) => RowStarted(rows, e)
    case RExited(e) => RowExited(rows, e)
  }

  function Replay(records: seq<Record>): Rows {
    if records == [] then map[] else Apply(Replay(records[..|records| - 1]), records[|records| - 1])
  }

  /** The position of the first record about `task`, or the length when there is none. */
  function FirstAbout(records: seq<Record>, task: TaskId): (i: nat)
    ensures i <= |records|
    ensures i < |records| ==> Subject(records[i]) == task
    ensures forall k :: 0 <= k < i ==> Subject(records[k]) != task
  {
    if records == [] then 0
    else if Subject(records[0]) == task then 0
    else 1 + FirstAbout(records[1..], task)
  }

  predicate RowLaws(row: Row) {
    && row.created.Some?
    && (row.status.Running? ==> row.started.Some?)
    && (!Unfinished(row.status) ==> row.exited.Some?)
  }

  /** Whatever is recorded, in whatever order: a task has a row iff something was recorded about it, the row was
      created at the time of its first record, and its status is backed by the matching time. */
  lemma {:induction false} StoreRowLaws(records: seq<Record>, task: TaskId)
    ensures task in Replay(records) <==> FirstAbout(records, task) < |records|
    ensures task in Replay(records) ==>
              && RowLaws(Replay(records)[task])
              && Replay(records)[task].created == Some(At(records[FirstAbout(records, task)]))
  {
    if records != [] {
      var before := records[..|records| - 1];
      StoreRowLaws(before, task);
      var i, j := FirstAbout(records, task), FirstAbout(before, task);
      assert j < |before| ==> before[j] == records[j];
      assert i < |before| ==> before[i] == records[i];
    }
  }

  /** Appending records never moves a creation time. */
  lemma {:induction false} CreationTimeIsFixed(records: seq<Record>, more: seq<Record>, task: TaskId)
    requires task in Replay(records)
    ensures task in Replay(records + more)
    ensures Replay(records + more)[task].created == Replay(records)[task].created
  {
    StoreRowLaws(records, task);
    StoreRowLaws(records + more, task);
    var i, j := FirstAbout(records, task), FirstAbout(records + more, task);
    assert (records + more)[i] == records[i];
    assert j <= i;
    assert (records + more)[j] == records[j];
  }

  /** Record `i` is the last one about `task`. */
  predicate LastAbout(records: seq<Record>, i: nat, task: TaskId) {
    && i < |records| && Subject(records[i]) == task
    && forall j :: i < j < |records| ==> Subject(records[j]) != task
  }

  predicate LastStart(records: seq<Record>, i: nat, task: TaskId) {
    && i < |records| && records[i].RStarted? && records[i].start.task == task
    && forall j :: i < j < |records| && records[j].RStarted? ==> records[j].start.task != task
  }

  predicate LastExit(records: seq<Record>, i: nat, task: TaskId) {
    && i < |records| && records[i].RExited? && records[i].exit.task == task
    && forall j :: i < j < |records| && records[j].RExited? ==> records[j].exit.task != task
  }

  /** Whatever is recorded, in whatever order: the last record about a task says its status, and a dispatch its job and
      node. */
  lemma {:induction false} StatusIsLastRecorded(records: seq<Record>, task: TaskId, i: nat)
    requires LastAbout(records, i, task)
    ensures task in Replay(records)
    ensures var row := Replay(records)[task];
      match records[i]
      case RDispatched(job, _, node, _) => row.status.Queued? && row.job == job && row.node == node
      case RStarted(_) => row.status.Running?
      case RExited(e) => if e.success then row.status.Succeeded? else row.status.Failed?
  {
    var last := |records| - 1;
    if i < last {
      var before := records[..last];
      assert forall j :: 0 <= j < |before| ==> before[j] == records[j];
      StatusIsLastRecorded(before, task, i);
      assert Subject(records[last]) != task;
    }
  }

  /** The start time is that of the last start, and there is none without one. */
  lemma {:induction false} StartIsLastRecorded(records: seq<Record>, task: TaskId)
    requires task in Replay(records)
    ensures forall i: nat :: LastStart(records, i, task) ==>
              Replay(records)[task].started == Some(records[i].start.timestamp)
    ensures Replay(records)[task].started.Some? ==> exists i: nat :: LastStart(records, i, task)
  {
    var last := |records| - 1;
    var before := records[..last];
    assert forall j :: 0 <= j < |before| ==> before[j] == records[j];
    if records[last].RStarted? && records[last].start.task == task {
      assert LastStart(records, last, task);
    } else if task in Replay(before) {
      StartIsLastRecorded(before, task);
      forall i: nat ensures LastStart(records, i, task) <==> LastStart(before, i, task) { }
    } else {
      StoreRowLaws(before, task);
    }
  }

  /** Exit time and exit code are those of the last exit, and there are none without one. */
  lemma {:induction false} ExitIsLastRecorded(records: seq<Record>, task: TaskId)
    requires task in Replay(records)
    ensures forall i: nat :: LastExit(records, i, task) ==>
              && Replay(records)[task].exited == Some(records[i].exit.timestamp)
              && Replay(records)[task].exitCode == records[i].exit.exitCode
    ensures Replay(records)[task].exited.Some? || Replay(records)[task].exitCode.Some? ==>
              exists i: nat :: LastExit(records, i, task)
  {
    var last := |records| - 1;
    var before := records[..last];
    assert forall j :: 0 <= j < |before| ==> before[j] == records[j];
    if records[last].RExited? && records[last].exit.task == task {
      assert LastExit(records, last, task);
    } else if task in Replay(before) {
      ExitIsLastRecorded(before, task);
      forall i: nat ensures LastExit(records, i, task) <==> LastExit(before, i, task) { }
    } else {
      StoreRowLaws(before, task);
    }
  }

  predicate LastDispatch(records: seq<Record>, i: nat, task: TaskId) {
    && i < |records| && records[i].RDispatched? && records[i].task == task
    && forall j :: i < j < |records| && records[j].RDispatched? ==> records[j].task != task
  }

  predicate NamedIn(r: Record, job: JobId, node: NodeId) {
    match r
    case RDispatched(j, _, n, _) => j == job && n == node
    case RStarted(e) => e.job == job && e.node == node
    case RExited(e) => e.job == job && e.node == node
  }

  lemma FirstAboutMore(records: seq<Record>, task: TaskId)
    requires records != []
    ensures var last := |records| - 1;
      var before := FirstAbout(records[..last], task);
      FirstAbout(records, task) ==
        (if before < last then before else if Subject(records[last]) == task then last else last + 1)
  {
    var last := |records| - 1;
    var i, j := FirstAbout(records, task), FirstAbout(records[..last], task);
    assert j < last ==> records[j] == records[..last][j];
    assert i < last ==> records[..last][i] == records[i];
  }

  /** The job and node of a row come from record `i`. */
  predicate ComesFrom(records: seq<Record>, row: Row, i: nat) {
    i < |records| && NamedIn(records[i], row.job, row.node)
  }

  /** A row stays at the job and node of the last dispatch, without one of the first record. */
  lemma {:induction false} PlaceIsRecorded(records: seq<Record>, task: TaskId)
    requires task in Replay(records)
    ensures forall i: nat :: LastDispatch(records, i, task) ==> ComesFrom(records, Replay(records)[task], i)
    ensures (exists i: nat :: LastDispatch(records, i, task))
            || ComesFrom(records, Replay(records)[task], FirstAbout(records, task))
  {
    var last := |records| - 1;
    var before := records[..last];
    FirstAboutMore(records, task);
    StoreRowLaws(before, task);
    hide FirstAbout, RowLaws;
    if records[last].RDispatched? && records[last].task == task {
      assert LastDispatch(records, last, task);
    } else {
      forall i: nat ensures LastDispatch(records, i, task) <==> LastDispatch(before, i, task) {
        DispatchedBefore(records, i, task);
      }
      hide LastDispatch;
      if task in Replay(before) {
        PlaceIsRecorded(before, task);
        assert forall i: nat :: ComesFrom(before, Replay(before)[task], i) ==>
            ComesFrom(records, Replay(records)[task], i);
      } else {
        NeverDispatched(before, task);
      }
    }
  }

  lemma NeverDispatched(records: seq<Record>, task: TaskId)
    requires task !in Replay(records)
    ensures forall i: nat :: !LastDispatch(records, i, task)
  {
    StoreRowLaws(records, task);
    hide Replay;
  }

  lemma DispatchedBefore(records: seq<Record>, i: nat, task: TaskId)
    requires records != []
    requires !(records[|records| - 1].RDispatched? && records[|records| - 1].task == task)
    ensures LastDispatch(records, i, task) <==> LastDispatch(records[..|records| - 1], i, task)
  {
    var before := records[..|records| - 1];
    assert forall j :: 0 <= j < |before| ==> before[j] == records[j];
  }

  // ---- Job summaries ----

  datatype TaskSummary = TaskSummary(task: TaskId, row: Row)

  datatype JobSummary = JobSummary(
    job: JobId, status: Status, created: Option<Time>, updated: Option<Time>, tasks: seq<TaskSummary>)

  function Earlier(a: Option<Time>, b: Option<Time>): Option<Time> {
    if a.None? then b else if b.None? then a else if a.value <= b.value then a else b
  }

  function Later(a: Option<Time>, b: Option<Time>): Option<Time> {
    if a.None? then b else if b.None? then a else if a.value >= b.value then a else b
  }

  function FirstCreated(tasks: seq<TaskSummary>): Option<Time> {
    if tasks == [] then None else Earlier(tasks[0].row.created, FirstCreated(tasks[1..]))
  }

  function LastTouched(tasks: seq<TaskSummary>): Option<Time> {
    if tasks == [] then None
    else Later(Later(Later(tasks[0].row.exited, tasks[0].row.started), tasks[0].row.created), LastTouched(tasks[1..]))
  }

  function Summary(tasks: seq<TaskSummary>, newId: JobId): JobSummary {
    JobSummary(
      if tasks == [] then newId else tasks[0].row.job,
      if exists i :: 0 <= i < |tasks| && Unfinished(tasks[i].row.status) then Running
      else if forall i :: 0 <= i < |tasks| ==> tasks[i].row.status.Succeeded? then Succeeded
      else Failed,
      FirstCreated(tasks),
      LastTouched(tasks),
      tasks)
  }

  /** The status of a job, read off the table directly. */
  ghost function JobStatus(rows: Rows, job: JobId): Status {
    if exists t :: t in rows && rows[t].job == job && Unfinished(rows[t].status) then Running
    else if forall t :: t in rows && rows[t].job == job ==> rows[t].status.Succeeded? then Succeeded
    else Failed
  }

  /** `tasks` lists every row of the job exactly once. */
  ghost predicate ListsJob(rows: Rows, job: JobId, tasks: seq<TaskSummary>) {
    && (forall i :: 0 <= i < |tasks| ==>
          tasks[i].task in rows && rows[tasks[i].task] == tasks[i].row && tasks[i].row.job == job)
    && (forall i, j :: 0 <= i < j < |tasks| ==> tasks[i].task != tasks[j].task)
    && (forall t :: t in rows && rows[t].job == job ==> exists i :: 0 <= i < |tasks| && tasks[i].task == t)
  }

  lemma SummaryStatusIsJobStatus(rows: Rows, job: JobId, tasks: seq<TaskSummary>, newId: JobId)
    requires ListsJob(rows, job, tasks)
    ensures Summary(tasks, newId).status == JobStatus(rows, job)
    ensures tasks != [] ==> Summary(tasks, newId).job == job
  {
    var status := Summary(tasks, newId).status;
    if i :| 0 <= i < |tasks| && Unfinished(tasks[i].row.status) {
      assert tasks[i].task in rows;
    } else {
      forall t | t in rows && rows[t].job == job
        ensures !Unfinished(rows[t].status)
        ensures status.Succeeded? ==> rows[t].status.Succeeded?
      {
        var i :| 0 <= i < |tasks| && tasks[i].task == t;
        assert !Unfinished(tasks[i].row.status);
      }
      if !status.Succeeded? {
        var i :| 0 <= i < |tasks| && !tasks[i].row.status.Succeeded?;
        assert tasks[i].task in rows;
      }
    }
  }

  lemma {:induction false} FirstCreatedIsMinimum(tasks: seq<TaskSummary>)
    ensures FirstCreated(tasks).None? <==> forall i :: 0 <= i < |tasks| ==> tasks[i].row.created.None?
    ensures FirstCreated(tasks).Some? ==>
              && (forall i :: 0 <= i < |tasks| && tasks[i].row.created.Some? ==>
                    FirstCreated(tasks).value <= tasks[i].row.created.value)
              && (exists i :: 0 <= i < |tasks| && tasks[i].row.created == FirstCreated(tasks))
  {
    if tasks != [] {
      FirstCreatedIsMinimum(tasks[1..]);
      var first := FirstCreated(tasks);
      if first != tasks[0].row.created {
        var i :| 0 <= i < |tasks[1..]| && tasks[1..][i].row.created == FirstCreated(tasks[1..]);
        assert tasks[i + 1].row.created == first;
      } else {
        assert first.Some? ==> tasks[0].row.created == first;
      }
      assert forall i :: 1 <= i < |tasks| ==> tasks[i] == tasks[1..][i - 1];
    }
  }

  predicate HasTime(row: Row, v: Time) {
    row.created == Some(v) || row.started == Some(v) || row.exited == Some(v)
  }

  /** A job is reported updated at the latest of all times of its tasks. */
  lemma {:induction false} LastTouchedIsMaximum(tasks: seq<TaskSummary>)
    ensures forall i, v :: 0 <= i < |tasks| && HasTime(tasks[i].row, v) ==>
              LastTouched(tasks).Some? && v <= LastTouched(tasks).value
    ensures LastTouched(tasks).Some? ==>
              exists i :: 0 <= i < |tasks| && HasTime(tasks[i].row, LastTouched(tasks).value)
  {
    if tasks != [] {
      LastTouchedIsMaximum(tasks[1..]);
      var last, rest := LastTouched(tasks), LastTouched(tasks[1..]);
      assert forall i :: 1 <= i < |tasks| ==> tasks[i] == tasks[1..][i - 1];
      if last.Some? && !HasTime(tasks[0].row, last.value) {
        var i :| 0 <= i < |tasks[1..]| && HasTime(tasks[1..][i].row, rest.value);
        assert HasTime(tasks[i + 1].row, last.value);
      }
    }
  }

  // ---- Order of the tasks of a job ----

  predicate TextLeq(a: string, b: string) {
    a == "" || (b != "" && (a[0] < b[0] || (a[0] == b[0] && TextLeq(a[1..], b[1..]))))
  }

  lemma {:induction false} TextLeqTotal(a: string, b: string)
    ensures TextLeq(a, b) || TextLeq(b, a)
    ensures TextLeq(a, b) && TextLeq(b, a) ==> a == b
  {
    if a != "" && b != "" {
      TextLeqTotal(a[1..], b[1..]);
      assert a == [a[0]] + a[1..] && b == [b[0]] + b[1..];
    }
  }

  lemma {:induction false} TextLeqTransitive(a: string, b: string, c: string)
    requires TextLeq(a, b) && TextLeq(b, c)
    ensures TextLeq(a, c)
  {
    if a != "" {
      if a[0] == b[0] == c[0] {
        TextLeqTransitive(a[1..], b[1..], c[1..]);
      }
    }
  }

  /** A text comes no later than those it begins and those that differ first in a larger character. */
  lemma {:induction false} TextLeqIff(a: string, b: string)
    ensures TextLeq(a, b) <==>
        a <= b || exists k :: 0 <= k < |a| && k < |b| && a[..k] == b[..k] && a[k] < b[k]
  {
    if a != "" && b != "" {
      TextLeqIff(a[1..], b[1..]);
      if a[0] == b[0] {
        if k :| 0 <= k < |a[1..]| && k < |b[1..]| && a[1..][..k] == b[1..][..k] && a[1..][k] < b[1..][k] {
          assert a[..k + 1] == [a[0]] + a[1..][..k] && b[..k + 1] == [b[0]] + b[1..][..k];
        }
        if k :| 0 <= k < |a| && k < |b| && a[..k] == b[..k] && a[k] < b[k] {
          assert a[1..][..k - 1] == a[..k][1..] && b[1..][..k - 1] == b[..k][1..];
        }
        assert a <= b <==> a[1..] <= b[1..];
      } else if a[0] < b[0] {
        assert a[..0] == b[..0];
      } else {
        assert forall k :: 0 < k < |a| && k < |b| ==> a[..k][0] == a[0] && b[..k][0] == b[0];
      }
    }
  }

  /** COALESCE(created_at, started_at, exited_at, ''), the empty text standing before every time. */
  function ListKey(row: Row): Option<Time> {
    Coalesce(row.created, Coalesce(row.started, row.exited))
  }

  predicate TimeLeq(a: Option<Time>, b: Option<Time>) {
    a.None? || (b.Some? && a.value <= b.value)
  }

  /** `t` is listed no later than `u`: by time, equal times by task id. */
  predicate ListedBefore(rows: Rows, t: TaskId, u: TaskId)
    requires t in rows && u in rows
  {
    var a, b := ListKey(rows[t]), ListKey(rows[u]);
    if a == b then TextLeq(t.text, u.text) else TimeLeq(a, b)
  }

  lemma ListedBeforeOrders(rows: Rows, t: TaskId, u: TaskId, v: TaskId)
    requires t in rows && u in rows && v in rows
    ensures ListedBefore(rows, t, u) || ListedBefore(rows, u, t)
    ensures ListedBefore(rows, t, u) && ListedBefore(rows, u, v) ==> ListedBefore(rows, t, v)
  {
    TextLeqTotal(t.text, u.text);
    if TextLeq(t.text, u.text) && TextLeq(u.text, v.text) {
      TextLeqTransitive(t.text, u.text, v.text);
    }
  }

  ghost predicate IsFirst(rows: Rows, tasks: set<TaskId>, first: TaskId)
    requires tasks <= rows.Keys
  {
    first in tasks && forall u :: u in tasks ==> ListedBefore(rows, first, u)
  }

  lemma {:induction false} FirstExists(rows: Rows, tasks: set<TaskId>) returns (first: TaskId)
    requires tasks != {} && tasks <= rows.Keys
    ensures IsFirst(rows, tasks, first)
    decreases tasks
  {
    hide ListedBefore;
    first :| first in tasks;
    ListedBeforeOrders(rows, first, first, first);
    if tasks != {first} {
      var best := FirstExists(rows, tasks - {first});
      ListedBeforeOrders(rows, first, best, best);
      if ListedBefore(rows, best, first) {
        first := best;
      } else {
        forall u | u in tasks ensures ListedBefore(rows, first, u) {
          ListedBeforeOrders(rows, first, best, u);
        }
      }
    }
  }

  ghost predicate InListOrder(rows: Rows, tasks: seq<TaskSummary>) {
    forall i, j :: 0 <= i < j < |tasks| ==>
      tasks[i].task in rows && tasks[j].task in rows && ListedBefore(rows, tasks[i].task, tasks[j].task)
  }

  /** In every table that calls have built, a job's tasks are listed by creation time, equal times by task id. */
  lemma ListedByCreation(records: seq<Record>, tasks: seq<TaskSummary>, i: nat, j: nat)
    requires InListOrder(Replay(records), tasks) && i < j < |tasks|
    ensures tasks[i].task in Replay(records) && tasks[j].task in Replay(records)
    ensures var a, b := Replay(records)[tasks[i].task].created, Replay(records)[tasks[j].task].created;
      && a.Some? && b.Some? && a.value <= b.value
      && (a == b ==> TextLeq(tasks[i].task.text, tasks[j].task.text))
  {
    hide Replay, TextLeq;
    StoreRowLaws(records, tasks[i].task);
    StoreRowLaws(records, tasks[j].task);
  }

  lemma ListOrderStarts(rows: Rows)
    ensures InListOrder(rows, [])
  {
  }

  lemma ListOrderMore(rows: Rows, tasks: seq<TaskSummary>, last: TaskSummary)
    requires InListOrder(rows, tasks) && last.task in rows
    requires forall i :: 0 <= i < |tasks| ==> tasks[i].task in rows && ListedBefore(rows, tasks[i].task, last.task)
    ensures InListOrder(rows, tasks + [last])
  {
    hide ListedBefore;
  }

  // ---- Listing order ----

  /** COALESCE(exited_at, started_at, created_at, ''): the column jobs are ordered by, '' being None. */
  function Touched(row: Row): Option<Time> {
    Coalesce(row.exited, Coalesce(row.started, row.created))
  }

  predicate AtLeast(a: Option<Time>, b: Option<Time>) {
    b.None? || (a.Some? && a.value >= b.value)
  }

  function SortKey(tasks: seq<TaskSummary>): Option<Time> {
    if tasks == [] then None else Later(Touched(tasks[0].row), SortKey(tasks[1..]))
  }

  /** The times a row has are in the order created, started, exited. */
  predicate Chronological(row: Row) {
    && AtLeast(row.started, if row.started.Some? then row.created else None)
    && AtLeast(row.exited, if row.exited.Some? then Later(row.started, row.created) else None)
  }

  lemma {:induction false} SortKeyIsLastTouched(tasks: seq<TaskSummary>)
    requires forall i :: 0 <= i < |tasks| ==> Chronological(tasks[i].row)
    ensures SortKey(tasks) == LastTouched(tasks)
  {
    if tasks != [] {
      assert Chronological(tasks[0].row);
      SortKeyIsLastTouched(tasks[1..]);
    }
  }

  function BeforeLast(row: Row): Option<Time> {
    Later(row.started, row.created)
  }

  lemma {:induction false} LastTouchedParts(tasks: seq<TaskSummary>)
    ensures AtLeast(LastTouched(tasks), SortKey(tasks))
    ensures forall i :: 0 <= i < |tasks| ==> AtLeast(LastTouched(tasks), BeforeLast(tasks[i].row))
    ensures LastTouched(tasks) == SortKey(tasks)
            || exists i :: 0 <= i < |tasks| && LastTouched(tasks) == BeforeLast(tasks[i].row)
  {
    if tasks != [] {
      LastTouchedParts(tasks[1..]);
      var last, rest := LastTouched(tasks), LastTouched(tasks[1..]);
      if last == rest {
        if i :| 0 <= i < |tasks[1..]| && rest == BeforeLast(tasks[1..][i].row) {
          assert last == BeforeLast(tasks[i + 1].row);
        }
      }
      assert last == rest || last == Touched(tasks[0].row) || last == BeforeLast(tasks[0].row);
    }
  }

  /** The column jobs are ordered by is the time they are reported with, exactly when no start or creation time is later
      than all the rows' last recorded stages. */
  lemma SortKeyIsLastTouchedIff(tasks: seq<TaskSummary>)
    ensures SortKey(tasks) == LastTouched(tasks)
            <==> forall i :: 0 <= i < |tasks| ==> AtLeast(SortKey(tasks), BeforeLast(tasks[i].row))
  {
    LastTouchedParts(tasks);
  }

  ghost function RowsOf(rows: Rows, job: JobId): set<TaskId> {
    set t | t in rows && rows[t].job == job
  }

  function Jobs(rows: Rows): set<JobId> {
    set t | t in rows :: rows[t].job
  }

  /** `key` is MAX(COALESCE(exited_at, started_at, created_at, '')) over the rows of the job. */
  ghost predicate IsKey(rows: Rows, job: JobId, key: Option<Time>) {
    && (forall t :: t in rows && rows[t].job == job ==> AtLeast(key, Touched(rows[t])))
    && (key.Some? ==> exists t :: t in rows && rows[t].job == job && Touched(rows[t]) == key)
  }

  lemma {:induction false} SortKeyIsMaximum(tasks: seq<TaskSummary>)
    ensures forall i :: 0 <= i < |tasks| ==> AtLeast(SortKey(tasks), Touched(tasks[i].row))
    ensures SortKey(tasks).Some? ==> exists i :: 0 <= i < |tasks| && SortKey(tasks) == Touched(tasks[i].row)
  {
    if tasks != [] {
      SortKeyIsMaximum(tasks[1..]);
      var rest := SortKey(tasks[1..]);
      if rest.Some? {
        var i :| 0 <= i < |tasks[1..]| && rest == Touched(tasks[1..][i].row);
        assert rest == Touched(tasks[i + 1].row);
      }
    }
  }

  lemma SortKeyIsKey(rows: Rows, job: JobId, tasks: seq<TaskSummary>)
    requires ListsJob(rows, job, tasks)
    ensures IsKey(rows, job, SortKey(tasks))
  {
    SortKeyIsMaximum(tasks);
    forall t | t in rows && rows[t].job == job ensures AtLeast(SortKey(tasks), Touched(rows[t])) {
      var i :| 0 <= i < |tasks| && tasks[i].task == t;
      assert AtLeast(SortKey(tasks), Touched(tasks[i].row));
    }
    if SortKey(tasks).Some? {
      var i :| 0 <= i < |tasks| && SortKey(tasks) == Touched(tasks[i].row);
      assert tasks[i].task in rows;
    }
  }

  /** The summary is about a job of the table, lists its rows and tells its status. */
  ghost predicate Reports(rows: Rows, summary: JobSummary) {
    && summary.job in Jobs(rows)
    && ListsJob(rows, summary.job, summary.tasks) && InListOrder(rows, summary.tasks)
    && summary.status == JobStatus(rows, summary.job)
    && summary.created == FirstCreated(summary.tasks) && summary.updated == LastTouched(summary.tasks)
  }

  lemma {:induction false} LargestTouched(rows: Rows, tasks: set<TaskId>) returns (key: Option<Time>)
    requires tasks <= rows.Keys
    ensures forall t :: t in tasks ==> AtLeast(key, Touched(rows[t]))
    ensures key.Some? ==> exists t :: t in tasks && Touched(rows[t]) == key
    decreases tasks
  {
    key := None;
    if tasks != {} {
      var t :| t in tasks;
      key := LargestTouched(rows, tasks - {t});
      if !AtLeast(key, Touched(rows[t])) { key := Touched(rows[t]); }
    }
  }

  /** The column jobs are ordered by. */
  ghost function Key(rows: Rows, job: JobId): (key: Option<Time>)
    ensures IsKey(rows, job, key)
  {
    KeyExists(rows, job);
    var key :| IsKey(rows, job, key);
    key
  }

  lemma KeyExists(rows: Rows, job: JobId)
    ensures exists key :: IsKey(rows, job, key)
  {
    hide Touched;
    var key := LargestTouched(rows, RowsOf(rows, job));
    assert IsKey(rows, job, key);
  }

  lemma OneKey(rows: Rows, job: JobId, a: Option<Time>, b: Option<Time>)
    requires IsKey(rows, job, a) && IsKey(rows, job, b)
    ensures a == b
  {
    hide Touched;
  }

  lemma ReportFromListing(rows: Rows, job: JobId, tasks: seq<TaskSummary>, newId: JobId)
    requires job in Jobs(rows) && ListsJob(rows, job, tasks) && InListOrder(rows, tasks)
    ensures Summary(tasks, newId).job == job
    ensures Reports(rows, Summary(tasks, newId))
    ensures (forall t :: t in rows ==> Chronological(rows[t])) ==> Summary(tasks, newId).updated == Key(rows, job)
  {
    assert tasks != [] by {
      var t :| t in rows && rows[t].job == job;
    }
    if forall t :: t in rows ==> Chronological(rows[t]) {
      hide Chronological, IsKey;
      SortKeyIsLastTouched(tasks);
    }
    hide InListOrder, JobStatus, SortKey, LastTouched, FirstCreated, IsKey, Chronological;
    SummaryStatusIsJobStatus(rows, job, tasks, newId);
    SortKeyIsKey(rows, job, tasks);
    OneKey(rows, job, Key(rows, job), SortKey(tasks));
  }

  ghost predicate IsTop(keys: map<JobId, Option<Time>>, jobs: set<JobId>, top: JobId)
    requires jobs <= keys.Keys
  {
    top in jobs && forall j :: j in jobs ==> AtLeast(keys[top], keys[j])
  }

  lemma {:induction false} TopExists(keys: map<JobId, Option<Time>>, jobs: set<JobId>) returns (top: JobId)
    requires jobs != {} && jobs <= keys.Keys
    ensures IsTop(keys, jobs, top)
    decreases jobs
  {
    top :| top in jobs;
    if jobs != {top} {
      var best := TopExists(keys, jobs - {top});
      if AtLeast(keys[best], keys[top]) {
        top := best;
      }
    }
  }

  predicate Listed(jobs: seq<JobSummary>, job: JobId) {
    exists i :: 0 <= i < |jobs| && jobs[i].job == job
  }

  // ---- The log tail ----

  function OfJob(logs: seq<LogLine>, job: JobId): seq<LogLine> {
    if logs == [] then []
    else if logs[0].job == job then [logs[0]] + OfJob(logs[1..], job)
    else OfJob(logs[1..], job)
  }

  function Reversed<T>(s: seq<T>): seq<T> {
    if s == [] then [] else Reversed(s[1..]) + [s[0]]
  }

  function FirstN<T>(s: seq<T>, n: nat): seq<T> {
    if n <= |s| then s[..n] else s
  }

  function LastN<T>(s: seq<T>, n: nat): seq<T> {
    if n <= |s| then s[|s| - n..] else s
  }

  /** The query as written: newest first, at most `lines` rows, then turned back to insertion order. */
  function TailLogs(logs: seq<LogLine>, job: JobId, lines: nat): seq<LogLine> {
    Reversed(FirstN(Reversed(OfJob(logs, job)), lines))
  }

  lemma {:induction false} ReversedAt<T>(s: seq<T>, k: nat)
    requires k < |s|
    ensures |Reversed(s)| == |s| && Reversed(s)[k] == s[|s| - 1 - k]
  {
    if |s| > 1 {
      ReversedAt(s[1..], if k < |s| - 1 then k else 0);
    }
  }

  lemma ReversedLength<T>(s: seq<T>)
    ensures |Reversed(s)| == |s|
  {
    if s != [] { ReversedAt(s, 0); }
  }

  /** The tail is the last `lines` rows of the job in insertion order. */
  lemma TailIsSuffix(logs: seq<LogLine>, job: JobId, lines: nat)
    ensures TailLogs(logs, job, lines) == LastN(OfJob(logs, job), lines)
  {
    var mine := OfJob(logs, job);
    var newest := FirstN(Reversed(mine), lines);
    ReversedLength(mine);
    ReversedLength(newest);
    forall k | 0 <= k < |newest|
      ensures Reversed(newest)[k] == LastN(mine, lines)[k]
    {
      ReversedAt(newest, k);
      ReversedAt(mine, |newest| - 1 - k);
    }
    assert Reversed(newest) == LastN(mine, lines);
  }

  /** `tail` is what the rows of the job at positions `ks` hold: rows are left out only when there are more than
      `lines`, and then only ones before all of those. */
  predicate TailAt(tail: seq<LogLine>, logs: seq<LogLine>, job: JobId, lines: nat, ks: seq<nat>) {
    && Increasing(ks, |logs|) && |tail| == |ks| <= lines
    && (forall i :: 0 <= i < |ks| ==> tail[i] == logs[ks[i]] && logs[ks[i]].job == job)
    && (forall k :: 0 <= k < |logs| && logs[k].job == job && k !in ks ==>
          |ks| == lines && (ks != [] ==> k < ks[0]))
  }

  /** `tail` is the last `lines` rows of the job, or all of them, in the order they were stored. */
  ghost predicate IsTail(tail: seq<LogLine>, logs: seq<LogLine>, job: JobId, lines: nat) {
    exists ks: seq<nat> :: TailAt(tail, logs, job, lines, ks)
  }

  lemma OfJobStep(logs: seq<LogLine>, job: JobId)
    requires logs != []
    ensures OfJob(logs, job) == (if logs[0].job == job then [logs[0]] else []) + OfJob(logs[1..], job)
  {
  }

  function JobFlags(logs: seq<LogLine>, job: JobId): seq<bool> {
    seq(|logs|, i requires 0 <= i < |logs| => logs[i].job == job)
  }

  lemma {:induction false} JobPositions(logs: seq<LogLine>, job: JobId) returns (ks: seq<nat>)
    ensures Picks(OfJob(logs, job), logs, JobFlags(logs, job), ks)
  {
    hide Picks, OfJob;
    if logs == [] {
      assert OfJob(logs, job) == [] by { NoLines(job); }
      PicksNothing<LogLine>();
      ks := [];
      assert logs == [] && JobFlags(logs, job) == [];
    } else {
      OfJobStep(logs, job);
      var mine, rest := logs[0].job == job, logs[1..];
      var later := JobPositions(rest, job);
      PicksFirst(OfJob(rest, job), logs[0], rest, mine, JobFlags(rest, job), later);
      assert logs == [logs[0]] + rest && JobFlags(logs, job) == [mine] + JobFlags(rest, job);
      ks := (if mine then [0] else []) + Shifted(later);
    }
  }

  lemma NoLines(job: JobId)
    ensures OfJob([], job) == []
  {
  }

  /** The query returns the last rows of the job asked for, in the order they were stored. */
  lemma TailLogsAreLast(logs: seq<LogLine>, job: JobId, lines: nat)
    ensures IsTail(TailLogs(logs, job, lines), logs, job, lines)
  {
    hide OfJob, TailLogs;
    TailIsSuffix(logs, job, lines);
    var all := JobPositions(logs, job);
    var cut := if lines <= |all| then |all| - lines else 0;
    var ks := all[cut..];
    LastPicks(all, |logs|, cut);
    hide Increasing;
    assert TailLogs(logs, job, lines) == OfJob(logs, job)[cut..];
    forall k: nat | k < |logs| ensures k in all <==> logs[k].job == job {
      assert JobFlags(logs, job)[k] == (logs[k].job == job);
    }
    hide JobFlags;
    assert TailAt(TailLogs(logs, job, lines), logs, job, lines, ks);
  }

  lemma SmallerTailIsSuffix(logs: seq<LogLine>, job: JobId, fewer: nat, more: nat)
    requires fewer <= more
    ensures TailLogs(logs, job, fewer) == LastN(TailLogs(logs, job, more), fewer)
  {
    TailIsSuffix(logs, job, fewer);
    TailIsSuffix(logs, job, more);
  }

  // ---- The store object ----

  class SqliteJobStore {
    var tasks: Rows
    var logs: seq<LogLine>

    constructor ()
      ensures tasks == map[] && logs == []
    {
      tasks, logs := map[], [];
    }

    method RecordTaskDispatched(job: JobId, task: TaskId, node: NodeId, now: Time)
      modifies this`tasks
      ensures tasks == Dispatched(old(tasks), job, task, node, now)
    {
      if task !in tasks {
        tasks := tasks[task := Row(job, node, Queued, Some(now), None, None, None)];
      } else {
        var row := tasks[task];
        tasks := tasks[task := row.(job := job, node := node, status := Queued,
                                    created := Coalesce(row.created, Some(now)))];
      }
    }

    method RecordTaskStarted(e: TaskStarted)
      modifies this`tasks
      ensures tasks == RowStarted(old(tasks), e)
    {
      if e.task !in tasks {
        tasks := tasks[e.task := Row(e.job, e.node, Running, Some(e.timestamp), Some(e.timestamp), None, None)];
      } else {
        var row := tasks[e.task];
        tasks := tasks[e.task := row.(status := Running, created := Coalesce(row.created, Some(e.timestamp)),
                                      started := Some(e.timestamp))];
      }
    }

    /** UPDATE first, INSERT when no row was touched: together one upsert. */
    method RecordTaskExited(e: TaskExited)
      modifies this`tasks
      ensures tasks == RowExited(old(tasks), e)
    {
      var updated := 0;
      if e.task in tasks {
        tasks := tasks[e.task := tasks[e.task].(status := StatusOf(e), exited := Some(e.timestamp),
                                                exitCode := e.exitCode)];
        updated := 1;
      }
      if updated == 0 {
        tasks := tasks[e.task := Row(e.job, e.node, StatusOf(e), Some(e.timestamp), None, Some(e.timestamp),
                                     e.exitCode)];
      }
    }

    method RecordLogLine(line: LogLine)
      modifies this`logs
      ensures logs == old(logs) + [line]
    {
      logs := logs + [line];
    }

    static method PickFirst(rows: Rows, remaining: set<TaskId>) returns (first: TaskId)
      requires remaining != {} && remaining <= rows.Keys
      ensures IsFirst(rows, remaining, first)
    {
      ghost var witnessFirst := FirstExists(rows, remaining);
      first :| first in remaining && forall u :: u in remaining ==> ListedBefore(rows, first, u);
    }

    /** SELECT of the rows of one job, ORDER BY time and task id. */
    method ListTasksForJob(job: JobId) returns (result: seq<TaskSummary>)
      ensures ListsJob(tasks, job, result) && InListOrder(tasks, result)
    {
      hide ListedBefore;
      hide InListOrder;
      result := [];
      ListOrderStarts(tasks);
      var remaining := set t | t in tasks && tasks[t].job == job;
      ghost var all := remaining;
      while remaining != {}
        invariant remaining <= all
        invariant forall i :: 0 <= i < |result| ==>
                    result[i].task in all - remaining && tasks[result[i].task] == result[i].row
        invariant forall i, j :: 0 <= i < j < |result| ==> result[i].task != result[j].task
        invariant forall t :: t in all ==> t in remaining || exists i :: 0 <= i < |result| && result[i].task == t
        invariant InListOrder(tasks, result)
        invariant forall i, t :: 0 <= i < |result| && t in remaining ==> ListedBefore(tasks, result[i].task, t)
        decreases remaining
      {
        var t := PickFirst(tasks, remaining);
        ghost var before := result;
        ListOrderMore(tasks, before, TaskSummary(t, tasks[t]));
        result := result + [TaskSummary(t, tasks[t])];
        remaining := remaining - {t};
        assert result[|before|].task == t;
        assert forall i :: 0 <= i < |before| ==> result[i] == before[i];
      }
      assert forall t :: t in tasks && tasks[t].job == job ==> t in all;
    }

    method GetJob(job: JobId, newId: JobId) returns (found: Option<JobSummary>)
      ensures found.None? <==> RowsOf(tasks, job) == {}
      ensures found.Some? ==>
                && found.value.job == job && Reports(tasks, found.value)
                && found.value.status == JobStatus(tasks, job)
                && ListsJob(tasks, job, found.value.tasks) && InListOrder(tasks, found.value.tasks)
    {
      hide ListedBefore, LastTouched, FirstCreated;
      var listed := ListTasksForJob(job);
      if listed == [] {
        return None;
      }
      assert listed[0].task in RowsOf(tasks, job);
      SummaryStatusIsJobStatus(tasks, job, listed, newId);
      return Some(Summary(listed, newId));
    }

    /** The grouped MAX column of the query. */
    method GroupKeys() returns (keys: map<JobId, Option<Time>>)
      ensures keys.Keys == Jobs(tasks)
      ensures forall j :: j in keys ==> keys[j] == Key(tasks, j)
    {
      keys := map[];
      var remaining := Jobs(tasks);
      while remaining != {}
        invariant remaining <= Jobs(tasks) && keys.Keys == Jobs(tasks) - remaining
        invariant forall j :: j in keys ==> keys[j] == Key(tasks, j)
        decreases remaining
      {
        var j :| j in remaining;
        var listed := ListTasksForJob(j);
        SortKeyIsKey(tasks, j, listed);
        OneKey(tasks, j, Key(tasks, j), SortKey(listed));
        keys := keys[j := SortKey(listed)];
        remaining := remaining - {j};
      }
    }

    static method PickTop(keys: map<JobId, Option<Time>>, jobs: set<JobId>) returns (top: JobId)
      requires jobs != {} && jobs <= keys.Keys
      ensures IsTop(keys, jobs, top)
    {
      ghost var witnessTop := TopExists(keys, jobs);
      top :| top in jobs && forall j :: j in jobs ==> AtLeast(keys[top], keys[j]);
    }

    /** ORDER BY the grouped column DESC LIMIT. */
    static method SelectJobs(keys: map<JobId, Option<Time>>, limit: nat) returns (ids: seq<JobId>)
      ensures |ids| <= limit && (|ids| < limit ==> forall j :: j in keys ==> j in ids)
      ensures forall i :: 0 <= i < |ids| ==> ids[i] in keys
      ensures forall i, j :: 0 <= i < j < |ids| ==> ids[i] != ids[j] && AtLeast(keys[ids[i]], keys[ids[j]])
      ensures forall i, j :: 0 <= i < |ids| && j in keys && j !in ids ==> AtLeast(keys[ids[i]], keys[j])
    {
      ids := [];
      var remaining := keys.Keys;
      while remaining != {} && |ids| < limit
        invariant |ids| <= limit
        invariant remaining <= keys.Keys
        invariant forall i :: 0 <= i < |ids| ==> ids[i] in keys && ids[i] !in remaining
        invariant forall j :: j in keys ==> j in remaining || j in ids
        invariant forall i, j :: 0 <= i < j < |ids| ==> ids[i] != ids[j] && AtLeast(keys[ids[i]], keys[ids[j]])
        invariant forall i, j :: 0 <= i < |ids| && j in remaining ==> AtLeast(keys[ids[i]], keys[j])
        decreases remaining
      {
        var top := PickTop(keys, remaining);
        ids := ids + [top];
        remaining := remaining - {top};
      }
    }

    method Report(job: JobId, newId: JobId) returns (summary: JobSummary)
      requires job in Jobs(tasks)
      ensures summary.job == job && Reports(tasks, summary)
      ensures (forall t :: t in tasks ==> Chronological(tasks[t])) ==> summary.updated == Key(tasks, job)
    {
      var listed := ListTasksForJob(job);
      ReportFromListing(tasks, job, listed, newId);
      summary := Summary(listed, newId);
    }

    /** `list_jobs`: one summary per selected job, most recently touched first. */
    method ListJobs(limit: nat, newId: JobId) returns (jobs: seq<JobSummary>)
      ensures |jobs| <= limit
      ensures |jobs| < limit ==> forall j :: j in Jobs(tasks) ==> Listed(jobs, j)
      ensures forall i :: 0 <= i < |jobs| ==> Reports(tasks, jobs[i])
      ensures forall i, j :: 0 <= i < j < |jobs| ==> jobs[i].job != jobs[j].job
      ensures forall i, j :: 0 <= i < j < |jobs| ==> AtLeast(Key(tasks, jobs[i].job), Key(tasks, jobs[j].job))
      ensures forall i, j :: 0 <= i < |jobs| && j in Jobs(tasks) && !Listed(jobs, j) ==>
                AtLeast(Key(tasks, jobs[i].job), Key(tasks, j))
      ensures (forall t :: t in tasks ==> Chronological(tasks[t])) ==>
                forall i, j :: 0 <= i < j < |jobs| ==> AtLeast(jobs[i].updated, jobs[j].updated)
    {
      hide Chronological, Reports, JobStatus, IsKey, Key, AtLeast;
      var keys := GroupKeys();
      var ids := SelectJobs(keys, limit);
      jobs := [];
      ghost var chronological := forall t :: t in tasks ==> Chronological(tasks[t]);
      for k := 0 to |ids|
        invariant |jobs| == k
        invariant forall i :: 0 <= i < k ==> jobs[i].job == ids[i]
        invariant forall i :: 0 <= i < k ==> Reports(tasks, jobs[i])
        invariant chronological ==> forall i :: 0 <= i < k ==> jobs[i].updated == keys[ids[i]]
      {
        var summary := Report(ids[k], newId);
        jobs := jobs + [summary];
      }
      if |jobs| < limit {
        forall j | j in keys ensures Listed(jobs, j) {
          var i :| 0 <= i < |ids| && ids[i] == j;
          assert jobs[i].job == j;
        }
      }
      forall j | j in keys && !Listed(jobs, j) ensures j !in ids {
        assert forall k :: 0 <= k < |ids| ==> jobs[k].job == ids[k];
      }
    }
  }
}
