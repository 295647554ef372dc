/** The daemon and its brokers together: what holds in every reachable state of the whole system. */
module BrokerSafety {
  import opened Wire
  import opened Ledger
  import opened LedgerRuns
  import opened LedgerInvariant
  import opened LedgerTheorems
  import opened Broker
  import opened BrokerInvariant
  import opened BrokerSteps
  import J = Journal
  import Mail

  // ---------------------------------------------------------------- whose task it is

  predicate LaunchMail(log: seq<Message>, t: TaskId, b: Session, n: nat) {
    n < |log| && log[n].task == Some(t) && log[n].body.LaunchBody? && log[n].to == Some(b)
  }

  /** The task's launch was addressed to broker `b`. */
  ghost predicate LaunchedTo(log: seq<Message>, t: TaskId, b: Session) {
    exists n: nat :: LaunchMail(log, t, b, n)
  }

  lemma LaunchedToStays(log: seq<Message>, log': seq<Message>, t: TaskId, b: Session)
    requires log <= log' && LaunchedTo(log, t, b)
    ensures LaunchedTo(log', t, b)
  {
    var n: nat :| LaunchMail(log, t, b, n);
    assert LaunchMail(log', t, b, n);
  }

  /** No task is ever launched to two brokers. */
  lemma LaunchedToOne(s: Store, t: TaskId, a: Session, b: Session)
    requires StoriesFit(s) && LaunchedTo(s.mail.log, t, a) && LaunchedTo(s.mail.log, t, b)
    ensures a == b
  {
    var n: nat :| LaunchMail(s.mail.log, t, a, n);
    var m: nat :| LaunchMail(s.mail.log, t, b, m);
    MarkAtPlace(s.mail.log, t, n);
    SameLaunch(s.mail.log, t, n, m);
  }

  /** A task in the ledger was launched to the broker its row names. */
  lemma RowLaunched(s: Store, t: TaskId)
    requires StoreInv(s) && t in s.tasks
    ensures LaunchedTo(s.mail.log, t, s.tasks[t].launcher.agent) && MailOf(s.mail.log, t) != []
  {
    StoriesAreOnce(MailOf(s.mail.log, t));
    var n := PlaceFilled(s.mail.log, t, 0);
    MarkAtPlace(s.mail.log, t, n);
    assert Addressed(s.tasks[t], s.mail.log[n]);
    assert LaunchMail(s.mail.log, t, s.tasks[t].launcher.agent, n);
  }

  // ---------------------------------------------------------------- what an answer means

  predicate IsEnding(body: Body) { body.ResultBody? || body.FailedBody? }

  /** An accepted terminal report leaves its task settled, whether it moved it, repeated it or acknowledged a cancel. */
  lemma ReportSettles(s: Store, now: int, a: Actor, target: Address, body: Body)
    requires StoreInv(s) && IsEnding(body) && Report(s, now, a, target, body).1.Ok?
    ensures Standing(Report(s, now, a, target, body).0, body.task) == 0
    ensures body.task in s.tasks
  {
    var to := Claims(body).value;
    MoveEffect(s, now, body.task, to, a, body);
    EffectSound(s, body.task, to, a, body);
  }

  /** An accepted accept leaves its task accepted. */
  lemma ReportAccepts(s: Store, now: int, a: Actor, target: Address, body: Body)
    requires StoreInv(s) && body.AcceptedBody? && Report(s, now, a, target, body).1.Ok?
    ensures var s' := Report(s, now, a, target, body).0; body.task in s'.tasks && s'.tasks[body.task].state == Accepted
  {
    MoveEffect(s, now, body.task, Accepted, a, body);
  }

  predicate IsOutcome(m: Message, t: TaskId) {
    m.task == Some(t) && IsEnding(m.body)
  }

  /** Where an outcome mail can come from: the sweep, or the launcher's or child's own report over the relay. */
  ghost predicate OutcomeSource(d: Daemon, op: Op, t: TaskId, body: Body) {
    || (op == House(SweepOne) && body == FailedBody(t, "deadline exceeded"))
    || (op.Tasks? && op.task.ReportTask? && op.task.body == body && IsEnding(body) && body.task == t && t in d.db.tasks
        && op.task.actor.Caller? && op.task.actor.origin == Relay)
  }

  lemma MoveAppends(s: Store, now: int, id: TaskId, to: TaskState, a: Actor, body: Body, m: nat, t: TaskId)
    requires Speaks(body, id, to) && StoreInv(s)
    requires var log' := Move(s, now, id, to, a, body).0.mail.log; |s.mail.log| <= m < |log'| && IsOutcome(log'[m], t)
    ensures t == id && t in s.tasks && Move(s, now, id, to, a, body).0.mail.log[m].body == body
    ensures a.System? || a.origin == Relay
  {
    MoveEffect(s, now, id, to, a, body);
    EffectSound(s, id, to, a, body);
    assert to != Cancelled;
  }

  lemma OutcomeAppended(d: Daemon, now: int, op: Op, d': Daemon, m: nat, t: TaskId)
    requires Inv(d) && Takes(d, now, op, d')
    requires |d.db.mail.log| <= m < |d'.db.mail.log| && IsOutcome(d'.db.mail.log[m], t)
    ensures OutcomeSource(d, op, t, d'.db.mail.log[m].body)
  {
    match op
    case Tasks(o) => TaskOutcome(d.db, now, o, m, t);
    case House(h) =>
      if h.SweepOne? {
        var due := d.sweeper.todo[0];
        MoveAppends(d.db, now, due, Failed, Actor.System, FailedBody(due, "deadline exceeded"), m, t);
      }
    case _ =>
  }

  lemma TaskOutcome(s: Store, now: int, op: TaskOp, m: nat, t: TaskId)
    requires StoreInv(s) && TaskEnabled(s, now, op)
    ensures var log' := TasksAfter(s, now, op).mail.log;
      |s.mail.log| <= m < |log'| && IsOutcome(log'[m], t) ==>
        && op.ReportTask? && op.body == log'[m].body && op.body.task == t && t in s.tasks
        && op.actor.origin == Relay
  {
    match op
    case AssignTask(req, id, top) =>
      if Assign(s, now, req, id, top).1.None? { AssignEffect(s, now, req, id, top); }
    case ReportTask(a, target, body) =>
      var log' := Move(s, now, body.task, Claims(body).value, a, body).0.mail.log;
      if |s.mail.log| <= m < |log'| && IsOutcome(log'[m], t) {
        MoveAppends(s, now, body.task, Claims(body).value, a, body, m, t);
      }
    case CancelTask(id, a) =>
      MoveEffect(s, now, id, Cancelled, a, CancelBody(id));
      EffectSound(s, id, Cancelled, a, CancelBody(id));
    case ProgressTask(id, a, turns, tool) =>
      if id in s.tasks { var next, message, targets := ProgressEffect(s, now, id, a, turns, tool); }
  }

  /** A mint that is granted is for a task that still stands. */
  lemma GrantedMintStands(d: Daemon, now: int, req: Frame, minted: Secret, d': Daemon)
    requires req.MintRequest? && Serves(d, now, req, minted, true, d')
    ensures Standing(d.db, req.task) > 0
  {
  }

  /** A report that is answered well leaves its task settled, or accepted. */
  lemma GrantedReport(d: Daemon, now: int, req: Frame, minted: Secret, d': Daemon)
    requires req.ReportRequest? && Inv(d) && Serves(d, now, req, minted, true, d')
    ensures IsEnding(req.body) ==>
              Standing(d'.db, req.body.task) == 0 && MailOf(d'.db.mail.log, req.body.task) != []
    ensures req.body.AcceptedBody? ==>
              && MailOf(d'.db.mail.log, req.body.task) == [Launched, AcceptSent]
              && req.body.task in d'.db.tasks && d'.db.tasks[req.body.task].state == Accepted
  {
    var op := Gate(d.db, req, minted).value;
    assert Takes(d, now, op, d');
    StepKeepsInv(d, now, op, d');
    var a, target := op.task.actor, op.task.target;
    if IsEnding(req.body) {
      ReportSettles(d.db, now, a, target, req.body);
      RowLaunched(d.db, req.body.task);
      assert Next(d, d');
      LogGrows(d, d');
      StoryOnlyGrows(d.db.mail.log, d'.db.mail.log, req.body.task);
    } else if req.body.AcceptedBody? {
      ReportAccepts(d.db, now, a, target, req.body);
    }
  }

  // ---------------------------------------------------------------- the invariant

  /** The mail the poll loop still has to handle. */
  function Batch(m: Main): seq<Message> {
    match m
    case Fetching(owed) => owed
    case Handling(batch) => batch
    case Minting(_, ToBatch(batch)) => batch
    case Minted(_, batch) => batch
    case Settling(_, _, ToBatch(batch)) => batch
    case _ => []
  }

  ghost predicate OwnMail(log: seq<Message>, b: Session, m: Message) {
    m.task.Some? ==> LaunchedTo(log, m.task.value, b)
  }

  /** A broker handles and journals only tasks launched to it. */
  ghost predicate OwnTasks(log: seq<Message>, b: Session, h: Host) {
    && (forall t :: t in h.put ==> LaunchedTo(log, t, b))
    && (forall m :: m in Batch(h.main) ==> OwnMail(log, b, m))
    && (InHand(h.main).Some? ==> LaunchedTo(log, InHand(h.main).value.launch.task, b))
  }

  /** What a broker believes confirmed is settled at the ledger, for good. */
  ghost predicate ConfirmedSettled(s: Store, h: Host) {
    forall t :: t in h.confirmed ==> MailOf(s.mail.log, t) != [] && Standing(s, t) == 0
  }

  /** Every terminal frame a broker has sent was durable in its journal. */
  ghost predicate WireDurable(h: Host) {
    forall req :: req in h.wire && req.ReportRequest? && IsEnding(req.body) ==> (req.body.task, req.body) in h.durable
  }

  ghost predicate HostSound(d: Daemon, b: Session, h: Host) {
    && h.id == b && HostInv(h)
    && OwnTasks(d.db.mail.log, b, h) && ConfirmedSettled(d.db, h) && WireDurable(h)
  }

  /** The poll loop is on its way to hand this task, not yet accepted, to a worker. */
  predicate Launching(m: Main, t: TaskId) {
    match m
    case Minting(r, ToBatch(_)) => r.launch.task == t && r.state == J.Received
    case Minted(r, _) => r.launch.task == t && r.state == J.Received
    case _ => false
  }

  /** This broker has journalled the task and has no way left to start it, ever again. */
  ghost predicate Spent(h: Host, t: TaskId) {
    && t in h.put
    && (t !in h.evicted ==> !Launching(h.main, t))
    && (forall k :: WorkerOn(h, t, k) ==> !h.workers[k].Accepting?)
  }

  ghost predicate StartSound(y: System, b: Session, t: TaskId) {
    && b in y.hosts && Spent(y.hosts[b], t)
    && [Launched, AcceptSent] <= MailOf(y.daemon.db.mail.log, t)
  }

  ghost predicate StartsSound(y: System) {
    && (forall i :: 0 <= i < |y.starts| ==> StartSound(y, y.starts[i].0, y.starts[i].1))
    && (forall i, j :: 0 <= i < j < |y.starts| ==> y.starts[i].1 != y.starts[j].1)
  }

  ghost predicate OutcomeDurable(log: seq<Message>, hosts: map<Session, Host>, t: TaskId, b: Session, n: nat, m: nat) {
    n < m < |log| && b in hosts && LaunchMail(log, t, b, n) && IsOutcome(log[m], t) ==>
      log[m].body == FailedBody(t, "deadline exceeded") || (t, log[m].body) in hosts[b].durable
  }

  ghost predicate OutcomesDurable(log: seq<Message>, hosts: map<Session, Host>) {
    forall t: TaskId, b, n: nat, m: nat :: OutcomeDurable(log, hosts, t, b, n, m)
  }

  /** The relay row of a broker's session, if there is one, is bound to the broker's own secret. */
  ghost predicate BrokersSecret(y: System) {
    forall b :: b in y.hosts ==>
      b.Named? && y.hosts[b].secret in y.held && RowsBound(y.daemon.db.agents, b, y.hosts[b].secret)
  }

  ghost predicate RowsBound(agents: Agents, b: Session, secret: Secret) {
    forall row :: IsRelayRow(agents, row) && row.agent == b ==> agents[row].secret == Some(secret)
  }

  ghost predicate IsChildRow(agents: Agents, row: Address, t: TaskId) {
    IsRelayRow(agents, row) && agents[row].kind == EyesChild && row.agent == Eyes(t)
  }

  /** The row of a child whose task was launched to one of these brokers. */
  ghost predicate IsOwnChild(y: System, t: TaskId, b: Session, row: Address) {
    b in y.hosts && LaunchedTo(y.daemon.db.mail.log, t, b) && IsChildRow(y.daemon.db.agents, row, t)
  }

  /** The child row of a task launched to one of these brokers has a secret that was minted for it. */
  ghost predicate ChildrenSecret(y: System) {
    forall t: TaskId, b, row :: IsOwnChild(y, t, b, row) ==>
      HeldSecret(y.daemon.db.agents[row].secret, y.held)
  }

  predicate HeldSecret(secret: Option<Secret>, held: set<Secret>) { secret.Some? && secret.value in held }

  /** A child row is always some known task's. */
  ghost predicate ChildrenKnown(s: Store) {
    forall row :: IsRelayRow(s.agents, row) && s.agents[row].kind == EyesChild ==>
      row.agent.Eyes? && MailOf(s.mail.log, row.agent.task) != []
  }

  ghost predicate SecretsSound(y: System) {
    BrokersSecret(y) && ChildrenSecret(y) && ChildrenKnown(y.daemon.db)
  }

  ghost predicate SystemInv(y: System) {
    && Inv(y.daemon)
    && (forall b :: b in y.hosts ==> HostSound(y.daemon, b, y.hosts[b]))
    && StartsSound(y)
    && OutcomesDurable(y.daemon.db.mail.log, y.hosts)
  }
}
