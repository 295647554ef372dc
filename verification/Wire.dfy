/** Names, frames and mail bodies shared by the daemon and the host broker. */
module Wire {
  datatype Option<+T> = None | Some(value: T)

  /** A task id. The real ids have one fixed width, so their text order is an order on numbers. */
  type TaskId = nat

  /** Reserved broker scopes (`host:NAME`) are told apart from workspaces by their prefix. */
  datatype Scope = Host(computer: string) | Workspace(path: string)

  /** A session id: the reserved `eyes-<task>` form, or any other text. */
  datatype Session = Eyes(task: TaskId) | Named(id: string)

  /** A row of the agents table. An agent id is an injective digest of its session. */
  datatype Address = Address(scope: Scope, agent: Session)

  type Secret = nat

  /** `overhead` is the size of a launch's encoding beside its brief: ids, names, scopes, punctuation. */
  datatype Body =
    | LaunchBody(task: TaskId, runtime: string, brief: string, replyTo: Address, deadlineS: int, overhead: nat)
    | CancelBody(task: TaskId)
    | AcceptedBody(task: TaskId, child: Address)
    | ResultBody(task: TaskId, report: string)
    | FailedBody(task: TaskId, error: string)
    | ProgressBody(task: TaskId, turns: int, tool: string, elapsedS: int)
    | Text(text: string)

  /** The mail that marks a step of a task's life. Progress copies are not lifecycle mail. */
  datatype Mark = Launched | CancelSent | AcceptSent | OutcomeSent

  function MarkOf(b: Body): Option<Mark> {
    match b
    case LaunchBody(_, _, _, _, _, _) => Some(Launched)
    case CancelBody(_) => Some(CancelSent)
    case AcceptedBody(_, _) => Some(AcceptSent)
    case ResultBody(_, _) => Some(OutcomeSent)
    case FailedBody(_, _) => Some(OutcomeSent)
    case ProgressBody(_, _, _, _) => None
    case Text(_) => None
  }

  /** One row of the messages table; its id is its position in the log, plus one. */
  datatype Message = Message(
    scope: Scope,
    from: Session,
    fromScope: Option<Scope>,
    to: Option<Session>,
    body: Body,
    createdAt: int,
    replyTo: Option<Address>,
    task: Option<TaskId>)
}
