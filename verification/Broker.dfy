/**
 * The host broker and the link to the daemon. The broker's poll loop and its workers are concurrent,
 * so they are a step machine; every call may commit without its answer arriving, any request ever
 * sent may be processed again later, and the broker may die between any two steps.
 */
module Broker {
  import opened Wire
  import opened Ledger
  import opened LedgerRuns
  import opened LaunchRules
  import J = Journal

  /** superviseTerminal: make the record durable, deliver its terminal, write the tombstone. */
  datatype Phase = Sealing | Sending | Closing

  /** A worker goroutine. `holds` marks the one that also gives the broker back when it ends. */
  datatype Worker =
    | Accepting(record: J.Record)
    | Running(record: J.Record)
    | Supervising(record: J.Record, phase: Phase, holds: bool)

  /** Where the poll loop goes on after a synchronous call. */
  datatype Resume = ToBatch(batch: seq<Message>) | ToRecovery(todo: seq<J.Record>)

  datatype Main =
    | Down
    | Recovering(todo: seq<J.Record>)
    | Idling
    | Fetching(owed: seq<Message>)
    | Handling(batch: seq<Message>)
    | Minting(record: J.Record, next: Resume)
    | Minted(record: J.Record, batch: seq<Message>)
    | Settling(record: J.Record, phase: Phase, next: Resume)

  datatype Frame =
    | MintRequest(task: TaskId, scope: Scope, launcher: Session, secret: Secret)
    | ReportRequest(session: Session, secret: Secret, target: Option<Address>, body: Body)

  /**
   * `main`, `workers` and `active` are process memory; `journal` survives a crash.
   * The rest is history: task ids ever journalled, tasks whose terminal the daemon has confirmed,
   * tasks whose tombstone was evicted, terminals ever made durable, and requests ever sent.
   */
  datatype Host = Host(
    id: Session, secret: Secret,
    main: Main, workers: map<nat, Worker>, active: Option<TaskId>,
    journal: J.Records,
    put: set<TaskId>, confirmed: set<TaskId>, evicted: set<TaskId>,
    durable: set<(TaskId, Body)>, wire: set<Frame>)

  // ---------------------------------------------------------------- records

  function Received(l: J.Launch): J.Record { J.Record(l, None, J.Received, None) }

  /** A record that has reached its terminal body. */
  function Ended(r: J.Record, body: Body): J.Record {
    r.(state := J.Terminal, terminal := Some(body))
  }

  predicate IsTerminalBody(body: Body, id: TaskId) {
    (body.ResultBody? || body.FailedBody?) && body.task == id
  }

  function LaunchOf(b: Body): J.Launch
    requires b.LaunchBody?
  {
    J.Launch(b.task, b.runtime, b.brief, Some(b.replyTo), b.deadlineS)
  }

  /** A cancel that arrives first leaves a record with no more of a launch than the cancel says. */
  function CancelledFirst(id: TaskId, replyTo: Address): J.Record {
    Ended(Received(J.Launch(id, "", "", Some(replyTo), 0)), FailedBody(id, "cancelled"))
  }

  /** handleMessage's checks on a launch's envelope. */
  predicate GoodLaunch(m: Message) {
    && m.body.LaunchBody? && m.task == Some(m.body.task)
    && m.replyTo == Some(m.body.replyTo) && m.fromScope == Some(m.body.replyTo.scope)
  }

  /** A launch the broker acts on: its envelope is good, and so is what it says. */
  predicate AcceptedLaunch(m: Message) {
    GoodLaunch(m) && ValidLaunch(m.body)
  }

  /** validCancelEnvelope */
  predicate GoodCancel(m: Message) {
    && m.body.CancelBody? && m.task == Some(m.body.task)
    && m.fromScope.Some? && m.fromScope != Some(Workspace("")) && m.replyTo.Some?
    && m.replyTo.value.scope == m.fromScope.value
  }

  /** What a successful FileJournal.Put does to the journal, and what it adds to the history. */
  ghost predicate Puts(h: Host, r: J.Record, h': Host) {
    exists gone: set<TaskId> :: PutsEvicting(h, r, gone, h')
  }

  ghost predicate PutsEvicting(h: Host, r: J.Record, gone: set<TaskId>, h': Host) {
    && J.ValidRecord(r.launch.task, J.Stored(r))
    && (forall id :: id in gone ==> J.Evictable(h.journal, r.launch.task, id))
    && h' == h.(journal := J.Without(h.journal, gone, J.Stored(r)),
                put := h.put + {r.launch.task},
                evicted := h.evicted + gone,
                durable := if r.state == J.Terminal then h.durable + {(r.launch.task, r.terminal.value)} else h.durable)
  }

  // ---------------------------------------------------------------- process steps without the daemon

  function Resumed(next: Resume): Main {
    match next
    case ToBatch(batch) => Handling(batch)
    case ToRecovery(todo) => Recovering(todo)
  }

  ghost predicate Crashes(h: Host, h': Host) {
    h' == h.(main := Down, workers := map[], active := None)
  }

  ghost predicate Boots(h: Host, h': Host) {
    && h.main.Down?
    && h'.main.Recovering? && h' == h.(main := h'.main)
    && (forall r :: r in h'.main.todo ==> r.launch.task in h.journal && h.journal[r.launch.task] == r)
    && (forall i, j :: 0 <= i < j < |h'.main.todo| ==> h'.main.todo[i].launch.task < h'.main.todo[j].launch.task)
    && (forall id :: id in h.journal ==> h.journal[id] in h'.main.todo)
  }

  function Interrupted(r: J.Record): Body {
    FailedBody(r.launch.task,
      if r.state == J.Accepted then "broker restarted after accepting task; execution was not repeated"
      else "broker restarted before accepting task; execution was not started")
  }

  /** What recovery does with one record: nothing is ever run again. */
  function Recovered(r: J.Record, rest: Resume): Main {
    if r.state == J.Delivered then Resumed(rest)
    else if r.state == J.Terminal then Settling(r, Sealing, rest)
    else if r.child.None? then Minting(r, rest)
    else Settling(Ended(r, Interrupted(r)), Sealing, rest)
  }

  ghost predicate Recovers(h: Host, h': Host) {
    && h.main.Recovering?
    && h' == h.(main := if h.main.todo == [] then Idling else Recovered(h.main.todo[0], ToRecovery(h.main.todo[1..])))
  }

  /** A launch of a task neither the journal nor this process knows. */
  predicate NewLaunch(h: Host, m: Message) {
    AcceptedLaunch(m) && m.body.task !in h.journal && h.active != Some(m.body.task)
  }

  /** The very launch of a task whose terminal is in the journal. */
  predicate RepeatedLaunch(h: Host, m: Message) {
    && AcceptedLaunch(m) && m.body.task in h.journal
    && h.journal[m.body.task].launch == LaunchOf(m.body) && h.journal[m.body.task].state == J.Terminal
  }

  predicate UnknownCancel(h: Host, m: Message) {
    GoodCancel(m) && m.body.task !in h.journal
  }

  /**
   * handleMessage drops a frame exactly when it is none of these three. A cancel of a known task is
   * dropped too: all it does is let that task's worker end sooner.
   */
  ghost predicate Drops(h: Host, h': Host) {
    && h.main.Handling?
    && if h.main.batch == [] then h' == h.(main := Idling)
       else
         var m := h.main.batch[0];
         && !NewLaunch(h, m) && !RepeatedLaunch(h, m) && !UnknownCancel(h, m)
         && h' == h.(main := Handling(h.main.batch[1..]))
  }

  ghost predicate Spawned(h: Host, w: Worker, h': Host) {
    exists k: nat :: k !in h.workers && h' == h.(workers := h.workers[k := w])
  }

  /** handleLaunch for a task the journal already knows: at most a second supervisor for its terminal. */
  ghost predicate LaunchesKnown(h: Host, h': Host) {
    && h.main.Handling? && h.main.batch != [] && RepeatedLaunch(h, h.main.batch[0])
    && var l := LaunchOf(h.main.batch[0].body);
    && Spawned(h.(main := Handling(h.main.batch[1..])), Supervising(h.journal[l.task], Sealing, false), h')
  }

  /** handleLaunch for a task the journal does not know: journal it, then ask for its child. */
  ghost predicate LaunchesNew(h: Host, h': Host) {
    && h.main.Handling? && h.main.batch != [] && NewLaunch(h, h.main.batch[0])
    && var l := LaunchOf(h.main.batch[0].body);
    var rest := ToBatch(h.main.batch[1..]);
    && (match h.active
        case None => Puts(h.(main := Minting(Received(l), rest), active := Some(l.task)), Received(l), h')
        case Some(busy) =>
          var r := Ended(Received(l), FailedBody(l.task, "eyes busy"));
          Puts(h.(main := Minting(r, rest)), r, h'))
  }

  /** A cancel for a task the journal does not know is answered with a durable failure. */
  ghost predicate CancelsUnknown(h: Host, h': Host) {
    && h.main.Handling? && h.main.batch != [] && UnknownCancel(h, h.main.batch[0])
    && var m := h.main.batch[0];
    h' == h.(main := Settling(CancelledFirst(m.body.task, m.replyTo.value), Sealing, ToBatch(h.main.batch[1..])))
  }

  /** The child is minted: journal the record with it, and hand the task to a worker. */
  ghost predicate HandsOver(h: Host, h': Host) {
    && h.main.Minted?
    && var r := if h.main.record.state == J.Received then h.main.record.(state := J.Accepted) else h.main.record;
    var w := if r.state == J.Accepted then Accepting(r) else Supervising(r, Sealing, false);
    exists h1 :: Puts(h.(main := Handling(h.main.batch)), r, h1) && Spawned(h1, w, h')
  }

  function Deactivated(h: Host, id: TaskId): Host {
    if h.active == Some(id) then h.(active := None) else h
  }

  /** The end of a worker: the one that holds the broker gives it back. */
  function Finished(h: Host, k: nat): Host
    requires k in h.workers
  {
    var w := h.workers[k];
    var h1 := h.(workers := h.workers - {k});
    if w.Supervising? && !w.holds then h1 else Deactivated(h1, w.record.launch.task)
  }

  /** A worker gives up its accept, or its provider ends: either way the record reaches a terminal. */
  ghost predicate Ends(h: Host, k: nat, body: Body, h': Host) {
    && k in h.workers && !h.workers[k].Supervising?
    && var r := h.workers[k].record;
    && IsTerminalBody(body, r.launch.task)
    && (h.workers[k].Accepting? ==> body.FailedBody?)
    && h' == h.(workers := h.workers[k := Supervising(Ended(r, body), Sealing, true)])
  }

  ghost predicate WorkerSeals(h: Host, k: nat, h': Host) {
    && k in h.workers && h.workers[k].Supervising? && h.workers[k].phase == Sealing
    && var w := h.workers[k];
    Puts(h.(workers := h.workers[k := w.(phase := Sending)]), w.record, h')
  }

  ghost predicate WorkerCloses(h: Host, k: nat, h': Host) {
    && k in h.workers && h.workers[k].Supervising? && h.workers[k].phase == Closing
    && Puts(Finished(h, k), J.Tombstone(h.workers[k].record.launch.task), h')
  }

  /** Shutdown cancels a supervisor's delivery. */
  ghost predicate WorkerAborts(h: Host, k: nat, h': Host) {
    k in h.workers && h.workers[k].Supervising? && h.workers[k].phase == Sending && h' == Finished(h, k)
  }

  ghost predicate MainSeals(h: Host, h': Host) {
    && h.main.Settling? && h.main.phase == Sealing
    && Puts(h.(main := h.main.(phase := Sending)), h.main.record, h')
  }

  ghost predicate MainCloses(h: Host, h': Host) {
    && h.main.Settling? && h.main.phase == Closing
    && Puts(h.(main := Resumed(h.main.next)), J.Tombstone(h.main.record.launch.task), h')
  }

  ghost predicate MainStep(h: Host, h': Host) {
    || Crashes(h, h') || Boots(h, h') || Recovers(h, h') || Drops(h, h')
    || LaunchesKnown(h, h') || LaunchesNew(h, h') || CancelsUnknown(h, h') || HandsOver(h, h')
    || MainSeals(h, h') || MainCloses(h, h')
  }

  ghost predicate WorkerStep(h: Host, k: nat, h': Host) {
    || (exists body :: Ends(h, k, body, h'))
    || WorkerSeals(h, k, h') || WorkerCloses(h, k, h') || WorkerAborts(h, k, h')
  }

  // ---------------------------------------------------------------- calls to the daemon

  function TerminalRequest(h: Host, r: J.Record): Frame
    requires r.terminal.Some?
  {
    match r.child
    case None => ReportRequest(h.id, h.secret, r.launch.replyTo, r.terminal.value)
    case Some(child) => ReportRequest(Eyes(r.launch.task), child.secret, r.launch.replyTo, r.terminal.value)
  }

  function AcceptRequest(h: Host, r: J.Record): Frame
    requires r.child.Some?
  {
    ReportRequest(h.id, h.secret, r.launch.replyTo, AcceptedBody(r.launch.task, r.child.value.ref))
  }

  /** The request the poll loop is waiting on, if any. */
  predicate MainCalls(h: Host, req: Frame) {
    || (h.main.Minting? && h.main.record.launch.replyTo.Some? &&
        req == MintRequest(h.main.record.launch.task, h.main.record.launch.replyTo.value.scope, h.id, h.secret))
    || (h.main.Settling? && h.main.phase == Sending && h.main.record.terminal.Some? &&
        req == TerminalRequest(h, h.main.record))
  }

  predicate WorkerCalls(h: Host, k: nat, req: Frame) {
    && k in h.workers
    && var w := h.workers[k];
    || (w.Accepting? && w.record.child.Some? && req == AcceptRequest(h, w.record))
    || (w.Supervising? && w.phase == Sending && w.record.terminal.Some? && req == TerminalRequest(h, w.record))
  }

  function Sent(h: Host, req: Frame): Host { h.(wire := h.wire + {req}) }

  /** The poll loop's answer to a mint: a child, or the end of the task without one. */
  ghost predicate MintAnswered(h: Host, ok: bool, minted: Secret, h': Host) {
    && h.main.Minting? && h.main.record.launch.replyTo.Some?
    && var r, next := h.main.record, h.main.next;
    var withChild := r.(child := Some(J.Child(Address(r.launch.replyTo.value.scope, Eyes(r.launch.task)), minted)));
    if ok then
      match next
      case ToBatch(batch) => h' == h.(main := Minted(withChild, batch))
      case ToRecovery(_) =>
        var ended := if r.state == J.Terminal then withChild else Ended(withChild, Interrupted(r));
        h' == h.(main := Settling(ended, Sealing, next))
    else
      var unauthorized := FailedBody(r.launch.task, "register eyes child: unauthorized");
      var failed := if r.terminal.None? then Ended(r, unauthorized) else r;
      var h1 := if next.ToBatch? && r.state == J.Received then Deactivated(h, r.launch.task) else h;
      h' == h1.(main := Settling(failed, Sealing, next))
  }

  function Confirmed(h: Host, id: TaskId): Host { h.(confirmed := h.confirmed + {id}) }

  /** A refused terminal is retried for ever; a delivered one may now become a tombstone. */
  ghost predicate MainReportAnswered(h: Host, ok: bool, h': Host) {
    && h.main.Settling?
    && h' == if ok then Confirmed(h.(main := h.main.(phase := Closing)), h.main.record.launch.task) else h
  }

  /** The provider is started here and nowhere else: on the daemon's own word that the accept stands. */
  ghost predicate WorkerAnswered(h: Host, k: nat, ok: bool, h': Host) {
    && k in h.workers
    && var w := h.workers[k];
    match w
    case Accepting(r) =>
      if ok then h' == h.(workers := h.workers[k := Running(r)])
      else
        var refused := Ended(r, FailedBody(r.launch.task, "refused"));
        h' == h.(workers := h.workers[k := Supervising(refused, Sealing, true)])
    case Supervising(r, _, _) =>
      h' == if ok then Confirmed(h.(workers := h.workers[k := w.(phase := Closing)]), r.launch.task) else h
    case Running(_) => false
  }

  // ---------------------------------------------------------------- the daemon's side of a call

  /** The relay gate: authenticate, then the one transaction the request asks for. */
  ghost function Gate(s: Store, req: Frame, minted: Secret): Option<Op> {
    match req
    case MintRequest(id, scope, launcher, secret) =>
      (match VerifyRelaySecret(s.agents, launcher, secret)
       case None => None
       case Some(row) =>
         if s.agents[row].kind == Launcher && id in s.tasks && s.tasks[id].requester.scope == scope
         then Some(Rows(ReissueRow(id, launcher, secret, minted))) else None)
    case ReportRequest(session, secret, target, body) =>
      (match VerifyRelaySecret(s.agents, session, secret)
       case None => None
       case Some(row) =>
         if target.Some? && Claims(body).Some?
         then Some(Tasks(ReportTask(Caller(row.scope, Some(row.agent), Relay, row), target.value, body))) else None)
  }

  /** The answer the caller would get. */
  ghost predicate Answers(s: Store, now: int, op: Op) {
    match op
    case Rows(ReissueRow(id, launcher, secret, _)) => ReissueRefused(s, id, launcher, secret).None?
    case Tasks(ReportTask(a, target, body)) => Claims(body).Some? && Report(s, now, a, target, body).1.Ok?
    case _ => false
  }

  /** The daemon serves a request: `ok` is its answer. */
  ghost predicate Serves(d: Daemon, now: int, req: Frame, minted: Secret, ok: bool, d': Daemon) {
    match Gate(d.db, req, minted)
    case None => !ok && d' == d
    case Some(op) => Takes(d, now, op, d') && ok == Answers(d.db, now, op)
  }

  // ---------------------------------------------------------------- the whole system

  /**
   * `starts` records every provider ever started, by which broker and for which task. `held` is history
   * too: the secrets of these brokers, and every secret ever minted on their requests.
   */
  datatype System = System(
    daemon: Daemon, hosts: map<Session, Host>, starts: seq<(Session, TaskId)>, held: set<Secret>)

  /**
   * What anybody may do to the daemon without passing the relay gate, or by registering. A broker's
   * session id is random, so nobody else is first to register it.
   */
  ghost predicate Open(y: System, op: Op) {
    match op
    case Rows(ReissueRow(_, _, _, _)) => false
    case Rows(RelayRow(row, _, secret)) =>
      row.agent in y.hosts && (forall r :: IsRelayRow(y.daemon.db.agents, r) ==> r.agent != row.agent) ==>
        secret == y.hosts[row.agent].secret
    case Tasks(ReportTask(a, _, _)) => a.Caller? && a.origin == Local
    case _ => true
  }

  ghost predicate EnvStep(y: System, y': System) {
    exists now, op :: Open(y, op) && Takes(y.daemon, now, op, y'.daemon) && y' == y.(daemon := y'.daemon)
  }

  /** Anybody else's request over the relay, for any task and session, with any secret these brokers do not hold. */
  ghost predicate OutsideStep(y: System, y': System) {
    exists now, req: Frame, minted, ok ::
      && req.secret !in y.held && Serves(y.daemon, now, req, minted, ok, y'.daemon)
      && y' == y.(daemon := y'.daemon)
  }

  /** A mint's new secret goes to the broker that asked, or to nobody. */
  function Issued(req: Frame, minted: Secret): set<Secret> {
    if req.MintRequest? then {minted} else {}
  }

  ghost predicate Replays(y: System, b: Session, now: int, req: Frame, minted: Secret, ok: bool, y': System) {
    && b in y.hosts && req in y.hosts[b].wire && Serves(y.daemon, now, req, minted, ok, y'.daemon)
    && y' == y.(daemon := y'.daemon, held := y.held + Issued(req, minted))
  }

  /** A request sent earlier, answered or not, is processed (again); its answer goes nowhere. */
  ghost predicate NetStep(y: System, y': System) {
    exists now, b, req, minted, ok :: Replays(y, b, now, req, minted, ok, y')
  }

  ghost predicate LocalStep(y: System, b: Session, y': System) {
    && b in y.hosts && b in y'.hosts
    && y' == y.(hosts := y.hosts[b := y'.hosts[b]])
    && (MainStep(y.hosts[b], y'.hosts[b]) || exists k :: WorkerStep(y.hosts[b], k, y'.hosts[b]))
  }

  ghost predicate ReadsLaunches(s: Store, b: Session, h: Host, h': Host) {
    h'.main.Fetching? && h' == h.(main := h'.main) && ReadsQueue(s, b, Queued, false, h'.main.owed)
  }

  ghost predicate ReadsCancels(s: Store, b: Session, h: Host, cancels: seq<Message>, h': Host)
    requires h.main.Fetching?
  {
    ReadsQueue(s, b, Cancelled, true, cancels) && h' == h.(main := Handling(h.main.owed + cancels))
  }

  /** A read of the redelivery queue: the launches first, the cancels in a later transaction. */
  ghost predicate PollStep(y: System, b: Session, y': System) {
    && b in y.hosts && b in y'.hosts
    && y' == y.(hosts := y.hosts[b := y'.hosts[b]])
    && var h, h', s := y.hosts[b], y'.hosts[b], y.daemon.db;
    || (h.main.Idling? && ReadsLaunches(s, b, h, h'))
    || (h.main.Fetching? && exists cancels :: ReadsCancels(s, b, h, cancels, h'))
    || (h.main.Fetching? && h' == h.(main := Idling))
  }

  /** Exactly what is owed, among any ordinary mail, which never carries a task id. */
  ghost predicate ReadsQueue(s: Store, b: Session, state: TaskState, latest: bool, owed: seq<Message>) {
    && (forall m :: m in owed && m.task.Some? ==>
          exists id: TaskId, n: nat :: Pending(s, b, state, latest, id, n) && m == s.mail.log[n])
    && (forall id: TaskId, n: nat :: Pending(s, b, state, latest, id, n) ==> s.mail.log[n] in owed)
  }

  /** A call whose answer is lost: the request is on the wire, and the caller goes on waiting. */
  ghost predicate SendStep(y: System, b: Session, req: Frame, y': System) {
    && b in y.hosts && (MainCalls(y.hosts[b], req) || exists k :: WorkerCalls(y.hosts[b], k, req))
    && y' == y.(hosts := y.hosts[b := Sent(y.hosts[b], req)])
  }

  ghost predicate MainCallStep(y: System, b: Session, now: int, req: Frame, minted: Secret, ok: bool, y': System) {
    && b in y.hosts && b in y'.hosts && MainCalls(y.hosts[b], req)
    && Serves(y.daemon, now, req, minted, ok, y'.daemon)
    && y' == y.(daemon := y'.daemon, hosts := y.hosts[b := y'.hosts[b]], held := y.held + Issued(req, minted))
    && var h := Sent(y.hosts[b], req);
    if req.MintRequest? then MintAnswered(h, ok, minted, y'.hosts[b]) else MainReportAnswered(h, ok, y'.hosts[b])
  }

  ghost predicate WorkerCallStep(y: System, b: Session, k: nat, now: int, req: Frame, ok: bool, y': System) {
    && b in y.hosts && b in y'.hosts && WorkerCalls(y.hosts[b], k, req)
    && Serves(y.daemon, now, req, 0, ok, y'.daemon)
    && WorkerAnswered(Sent(y.hosts[b], req), k, ok, y'.hosts[b])
    && var w := y.hosts[b].workers[k];
    var started := if w.Accepting? && ok then [(b, w.record.launch.task)] else [];
    y' == y.(daemon := y'.daemon, hosts := y.hosts[b := y'.hosts[b]], starts := y.starts + started)
  }

  ghost predicate HostStep(y: System, b: Session, y': System) {
    || LocalStep(y, b, y') || PollStep(y, b, y')
    || (exists req :: SendStep(y, b, req, y'))
    || (exists now, req, minted, ok :: MainCallStep(y, b, now, req, minted, ok, y'))
    || (exists k, now, req, ok :: WorkerCallStep(y, b, k, now, req, ok, y'))
  }

  ghost predicate Step(y: System, y': System) {
    EnvStep(y, y') || OutsideStep(y, y') || NetStep(y, y') || exists b :: HostStep(y, b, y')
  }

  ghost predicate Start(y: System) {
    && Init(y.daemon) && y.starts == []
    && forall b :: b in y.hosts ==> b.Named? && y.hosts[b].secret in y.held && FreshHost(b, y.hosts[b])
  }

  predicate FreshHost(b: Session, h: Host) {
    && h.id == b && h.main == Down && h.workers == map[] && h.active == None && h.journal == map[]
    && h.put == {} && h.confirmed == {} && h.evicted == {} && h.durable == {} && h.wire == {}
  }

  ghost predicate StepAt(run: seq<System>, i: nat)
    requires i < |run| - 1
  {
    Step(run[i], run[i + 1])
  }

  ghost predicate IsRun(run: seq<System>) {
    && |run| > 0 && Start(run[0])
    && forall i :: 0 <= i < |run| - 1 ==> StepAt(run, i)
  }
}
