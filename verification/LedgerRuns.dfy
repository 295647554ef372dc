/** Runs of the daemon: transactions of any clients interleaved with one housekeeper. */
module LedgerRuns {
  import opened Wire
  import opened Ledger
  import Mail

  /**
   * The one housekeeping thread. It snapshots the overdue tasks at `cutoff`, settles them one
   * transaction at a time, and only then may run its purges, again one statement at a time.
   */
  datatype Sweeper =
    | Resting
    | Sweeping(cutoff: int, todo: seq<TaskId>)
    | Swept(cutoff: int)

  datatype Daemon = Daemon(db: Store, sweeper: Sweeper)

  datatype RowOp =
    | RegisterRow(row: Address, parent: Option<Session>)
    | TouchRow(row: Address)
    | StatusRow(row: Address, status: Status)
    | RelayRow(row: Address, caps: set<Cap>, secret: Secret)
    | ReissueRow(task: TaskId, launcher: Session, secret: Secret, minted: Secret)

  datatype MailOp =
    | SendMail(from: Address, toScope: Scope, to: Option<Session>, text: string, replyTo: Option<Address>)
    | ReadMail(scope: Scope, agent: Session)
    | NoticeMail(scope: Scope, agent: Session)

  datatype TaskOp =
    | AssignTask(req: Request, task: TaskId, top: Option<Address>)
    | ReportTask(actor: Actor, target: Address, body: Body)
    | CancelTask(task: TaskId, actor: Actor)
    | ProgressTask(task: TaskId, actor: Actor, turns: int, tool: string)

  /** `Stop` is the daemon dying at any point of its housekeeping, or finishing it. */
  datatype HouseOp =
    | SweepStart(todo: seq<TaskId>) | SweepOne | SweepEnd
    | MailPurge | DeliveryPurge | AgentPurge | TaskPurge | Stop

  datatype Op = Rows(row: RowOp) | Mails(mail: MailOp) | Tasks(task: TaskOp) | House(house: HouseOp)

  function UnreadSet(m: Mail.Store, scope: Scope, agent: Session): set<nat> {
    set id | 0 <= id < |m.log| && Mail.Unread(m, scope, agent, id)
  }

  function UnnoticedSet(m: Mail.Store, scope: Scope, agent: Session): set<nat> {
    set id | 0 <= id < |m.log| && Mail.Unnoticed(m, scope, agent, id)
  }

  /** An id no row and no message has ever carried. */
  ghost predicate Fresh(s: Store, id: TaskId) {
    id !in s.tasks && forall m :: 0 <= m < |s.mail.log| ==> s.mail.log[m].task != Some(id)
  }

  ghost predicate TaskEnabled(s: Store, now: int, op: TaskOp) {
    match op
    case AssignTask(req, id, top) => Fresh(s, id) && IsTopRow(s, now, req.runtime, top)
    case ReportTask(a, _, body) => a.Caller? && Claims(body).Some?
    case CancelTask(_, a) => a.Caller?
    case ProgressTask(_, a, _, _) => a.Caller?
  }

  ghost predicate HouseEnabled(d: Daemon, now: int, op: HouseOp) {
    match op
    case SweepStart(todo) => d.sweeper.Resting? && forall id :: id in todo <==> Overdue(d.db, now, id)
    case SweepOne => d.sweeper.Sweeping? && d.sweeper.todo != []
    case SweepEnd => d.sweeper.Sweeping? && d.sweeper.todo == []
    case Stop => true
    case _ => d.sweeper.Swept?
  }

  ghost predicate Enabled(d: Daemon, now: int, op: Op) {
    match op
    case Rows(r) => r.RelayRow? ==> r.row.scope.Host?
    case Mails(_) => true
    case Tasks(t) => TaskEnabled(d.db, now, t)
    case House(h) => HouseEnabled(d, now, h)
  }

  ghost function RowsAfter(s: Store, now: int, op: RowOp): Agents {
    match op
    case RegisterRow(row, parent) => Register(s.agents, now, row, parent)
    case TouchRow(row) => Touch(s.agents, now, row)
    case StatusRow(row, status) => SetStatus(s.agents, now, row, status)
    case RelayRow(row, caps, secret) => RegisterRelay(s.agents, now, row, caps, secret).0
    case ReissueRow(id, launcher, secret, minted) => Reissue(s, now, id, launcher, secret, minted)
  }

  function MailAfter(s: Store, now: int, op: MailOp): Mail.Store {
    match op
    case SendMail(from, toScope, to, text, replyTo) =>
      var sent := Send(s, now, from, toScope, to, text, replyTo);
      if sent.Some? then sent.value.mail else s.mail
    case ReadMail(scope, agent) => Mail.MarkRead(s.mail, agent, UnreadSet(s.mail, scope, agent))
    case NoticeMail(scope, agent) => Mail.MarkNoticed(s.mail, agent, UnnoticedSet(s.mail, scope, agent))
  }

  ghost function TasksAfter(s: Store, now: int, op: TaskOp): Store
    requires TaskEnabled(s, now, op)
  {
    match op
    case AssignTask(req, id, top) => Assign(s, now, req, id, top).0
    case ReportTask(a, target, body) => Report(s, now, a, target, body).0
    case CancelTask(id, a) => Cancel(s, now, id, a).0
    case ProgressTask(id, a, turns, tool) => RecordProgress(s, now, id, a, turns, tool).0
  }

  ghost function HouseAfter(d: Daemon, now: int, op: HouseOp): Daemon
    requires HouseEnabled(d, now, op)
  {
    match op
    case SweepStart(todo) => d.(sweeper := Sweeping(now, todo))
    case SweepOne => Daemon(Expire(d.db, now, d.sweeper.todo[0]).0, d.sweeper.(todo := d.sweeper.todo[1..]))
    case SweepEnd => d.(sweeper := Swept(d.sweeper.cutoff))
    case MailPurge => d.(db := PurgeMail(d.db, d.sweeper.cutoff))
    case DeliveryPurge => d.(db := PurgeDeliveries(d.db))
    case AgentPurge => d.(db := d.db.(agents := PurgeAgents(d.db.agents, d.sweeper.cutoff)))
    case TaskPurge => d.(db := PurgeTasks(d.db, d.sweeper.cutoff))
    case Stop => d.(sweeper := Resting)
  }

  ghost function After(d: Daemon, now: int, op: Op): Daemon
    requires Enabled(d, now, op)
  {
    match op
    case Rows(r) => d.(db := d.db.(agents := RowsAfter(d.db, now, r)))
    case Mails(m) => d.(db := d.db.(mail := MailAfter(d.db, now, m)))
    case Tasks(t) => d.(db := TasksAfter(d.db, now, t))
    case House(h) => HouseAfter(d, now, h)
  }

  /** The daemon with its clock advanced to `now`. */
  function At(d: Daemon, now: int): Daemon { d.(db := d.db.(clock := now)) }

  /** One transaction at time `now`; the clock never runs back. */
  ghost predicate Takes(d: Daemon, now: int, op: Op, d': Daemon) {
    && d.db.clock <= now
    && Enabled(d, now, op)
    && d' == At(After(d, now, op), now)
  }

  ghost predicate Next(d: Daemon, d': Daemon) {
    exists now, op :: Takes(d, now, op, d')
  }

  ghost predicate Init(d: Daemon) {
    && d.db.clock > 0
    && d.db.agents == map[] && d.db.tasks == map[]
    && d.db.mail == Mail.Store([], {}, map[])
    && d.sweeper == Resting
  }

  ghost predicate IsRun(run: seq<Daemon>) {
    && |run| > 0 && Init(run[0])
    && forall i :: 0 <= i < |run| - 1 ==> StepAt(run, i)
  }

  ghost predicate StepAt(run: seq<Daemon>, i: nat)
    requires i < |run| - 1
  {
    Next(run[i], run[i + 1])
  }
}
