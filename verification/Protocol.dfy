/** The identifiers and messages that the coordinator, the workers and the clients exchange. */
module Protocol {

  datatype Option<+T> = None | Some(value: T)

  datatype JobId = JobId(text: string)
  datatype TaskId = TaskId(text: string)
  datatype NodeId = NodeId(text: string)
  datatype LeaseId = LeaseId(text: string)

  /** Clock readings are only ever compared, so any ordered type does. */
  type Time = int

  datatype LogStream = Stdout | Stderr | System

  datatype RunSpec = RunSpec(
    job: JobId,
    task: TaskId,
    node: NodeId,
    argv: seq<string>,
    cwd: string,
    env: map<string, string>,
    timeout: Option<nat>)

  datatype TaskStarted = TaskStarted(job: JobId, task: TaskId, node: NodeId, pid: Option<nat>, timestamp: Time)

  datatype LogLine = LogLine(
    job: JobId, task: TaskId, node: NodeId, stream: LogStream, timestamp: Time, line: string, offset: nat)

  datatype TaskExited = TaskExited(
    job: JobId, task: TaskId, node: NodeId, exitCode: Option<int>, success: bool, timestamp: Time)

  datatype WorkerError = WorkerError(node: Option<NodeId>, task: Option<TaskId>, message: string)

  /** What a worker sends after it has registered. */
  datatype WorkerMessage =
    | Heartbeat(from: NodeId, at: Time)
    | Started(started: TaskStarted)
    | Log(log: LogLine)
    | Exited(exited: TaskExited)
    | Error(error: WorkerError)

  /** What the coordinator broadcasts to waiting clients. */
  datatype CoordinatorEvent =
    | StartedEvent(started: TaskStarted)
    | LogEvent(log: LogLine)
    | ExitedEvent(exited: TaskExited)
    | ErrorEvent(error: WorkerError)

  datatype CoordinatorMessage = StartTask(spec: RunSpec) | KillTask(task: TaskId)

  datatype TaskAssignment = TaskAssignment(job: JobId, task: TaskId, node: NodeId)
}
