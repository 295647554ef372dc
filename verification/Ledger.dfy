/**
 * The daemon's eyes-task ledger and the agent rows it depends on: each
 * function is the effect of one database transaction at time `now`.
 */
module Ledger {
  import opened Wire
  import Mail

  const LAUNCHER_WINDOW := 30
  const DEADLINE_DEFAULT := 300
  const DEADLINE_MAX := 1800
  const MAIL_INTERVAL := 120
  const MAX_TURNS := 100000
  const MAX_TOOL := 64
  const LIVE_WINDOW := 900
  const AGENT_TTL := 7200
  const TASK_TTL := 86400

  datatype Kind = NoKind | Launcher | EyesChild
  datatype Origin = Local | Relay
  datatype Status = Active | Idle | Gone
  datatype Cap = Provider(name: string) | Chrome | OtherCap(name: string)

  /** One agents row; `secret` stands for its digest, which is injective. */
  datatype Agent = Agent(
    kind: Kind, origin: Origin, status: Status, registeredAt: int, lastSeen: int,
    secret: Option<Secret>, caps: set<Cap>, parent: Option<Session>)

  datatype TaskState = Queued | Accepted | Done | Failed | Cancelled

  datatype Progress = Progress(turns: int, tool: string, mailedAt: int, mailedTurns: int)

  datatype Task = Task(
    requester: Address, launcher: Address, runtime: string, state: TaskState, cancelAcked: bool,
    deadline: int, createdAt: int, updatedAt: int, progress: Progress, heartbeatAt: int)

  datatype Store = Store(
    clock: int, agents: Agents, tasks: map<TaskId, Task>, mail: Mail.Store)

  datatype Error =
    | UnknownTask | NotYourTask | BadTransition | NoAgent | TaskNotLive | ForeignSession
    | RelayAuth | NoLauncher | NoProvider | EyesBusy | BadRuntime

  /** A task that still reserves its broker: live, or cancelled and not yet answered. */
  predicate HoldsBroker(t: Task) {
    t.state == Queued || t.state == Accepted || (t.state == Cancelled && !t.cancelAcked)
  }

  function EyesDeadline(d: int): int {
    if d <= 0 then DEADLINE_DEFAULT else if d > DEADLINE_MAX then DEADLINE_MAX else d
  }

  // ---------------------------------------------------------------- mail

  predicate Live(a: Agent, now: int) {
    a.status != Gone && now - a.lastSeen <= LIVE_WINDOW
  }

  /** Everyone live in a scope, minus the sender. */
  function LiveAgents(s: Store, now: int, scope: Scope, except: Session): set<Session> {
    set row | row in s.agents && row.scope == scope && row.agent != except && Live(s.agents[row], now) :: row.agent
  }

  /** sendToScope with its sender already resolved; fails only when a named recipient has no row. */
  function Post(s: Store, now: int, from: Address, toScope: Scope, to: Option<Session>,
                body: Body, replyTo: Option<Address>, task: Option<TaskId>): Option<Store> {
    if to.Some? && Address(toScope, to.value) !in s.agents then
      None
    else
      var targets := if to.Some? then {to.value} else LiveAgents(s, now, toScope, from.agent);
      var message := Message(toScope, from.agent, Mail.Stamped(from, toScope), to, body, now, replyTo, task);
      Some(s.(mail := Mail.Posted(s.mail, message, targets)))
  }

  /** An ordinary send: never carries a task id, and its sender must have a row. */
  function Send(s: Store, now: int, from: Address, toScope: Scope, to: Option<Session>,
                text: string, replyTo: Option<Address>): Option<Store> {
    if from !in s.agents then None else Post(s, now, from, toScope, to, Text(text), replyTo, None)
  }

  // ---------------------------------------------------------------- agent rows

  type Agents = map<Address, Agent>

  function Refreshed(a: Agent, now: int): Agent { a.(status := Active, lastSeen := now) }

  /** Store.register and RegisterChild: refresh the row, or insert a local one. */
  function Register(agents: Agents, now: int, row: Address, parent: Option<Session>): Agents {
    agents[row := if row in agents then Refreshed(agents[row], now)
                  else Agent(NoKind, Local, Active, now, now, None, {}, parent)]
  }

  function Woken(a: Agent, now: int): Agent {
    if a.status == Gone then a
    else a.(lastSeen := now, status := if a.status == Idle then Active else a.status)
  }

  function Touch(agents: Agents, now: int, row: Address): Agents {
    if row in agents then agents[row := Woken(agents[row], now)] else agents
  }

  function SetStatus(agents: Agents, now: int, row: Address, status: Status): Agents {
    if row in agents then agents[row := agents[row].(status := status, lastSeen := now)] else agents
  }

  ghost predicate IsRelayRow(agents: Agents, row: Address) {
    row in agents && agents[row].origin == Relay
  }

  /** agentBySession: one row for a session id across scopes, a relay row before any other. */
  ghost function FirstRow(agents: Agents, session: Session): Option<Address> {
    if row :| IsRelayRow(agents, row) && row.agent == session then Some(row)
    else if row :| row in agents && row.agent == session then Some(row)
    else None
  }

  ghost function VerifyRelaySecret(agents: Agents, session: Session, secret: Secret): Option<Address> {
    match FirstRow(agents, session)
    case None => None
    case Some(row) =>
      if agents[row].origin == Relay && agents[row].secret == Some(secret) then Some(row) else None
  }

  /** RegisterRelay for a launcher: a session id names one row, bound to one secret when it is created. */
  ghost function RegisterRelay(agents: Agents, now: int, row: Address, caps: set<Cap>, secret: Secret)
    : (Agents, Option<Error>)
  {
    match FirstRow(agents, row.agent)
    case None =>
      (agents[row := Agent(Launcher, Relay, Active, now, now, Some(secret), caps, None)], None)
    case Some(prior) =>
      var a := agents[prior];
      if prior.scope != row.scope || a.origin != Relay || (a.kind != NoKind && a.kind != Launcher) then
        (agents, Some(ForeignSession))
      else if a.secret != Some(secret) then
        (agents, Some(RelayAuth))
      else
        (agents[row := Refreshed(a, now).(kind := Launcher, caps := caps)], None)
  }

  function ChildRow(id: TaskId, t: Task): Address { Address(t.requester.scope, Eyes(id)) }

  predicate RelayKind(agents: Agents, row: Address, kind: Kind) {
    row in agents && agents[row].origin == Relay && agents[row].kind == kind
  }

  /** Somebody else's row wears the child's session id. */
  predicate ForeignChild(agents: Agents, id: TaskId, t: Task) {
    exists row :: row in agents && row.agent == Eyes(id) &&
      !(row.scope == t.requester.scope && agents[row].origin == Relay && agents[row].kind == EyesChild)
  }

  /** Why a launcher may not mint this task's child, if it may not. */
  function ReissueRefused(s: Store, id: TaskId, launcher: Session, secret: Secret): Option<Error> {
    if id !in s.tasks then Some(UnknownTask)
    else
      var t := s.tasks[id];
      if t.launcher.agent != launcher then Some(NotYourTask)
      else if !HoldsBroker(t) then Some(TaskNotLive)
      else if !RelayKind(s.agents, t.launcher, Launcher) then Some(ForeignSession)
      else if s.agents[t.launcher].secret != Some(secret) then Some(RelayAuth)
      else if ForeignChild(s.agents, id, t) then Some(ForeignSession)
      else None
  }

  /** ReissueEyesChild: mint the task's child with a fresh secret, on its own launcher's authority. */
  function Reissue(s: Store, now: int, id: TaskId, launcher: Session, secret: Secret, minted: Secret): Agents {
    if ReissueRefused(s, id, launcher, secret).Some? then s.agents
    else
      var child := ChildRow(id, s.tasks[id]);
      var agents := Register(s.agents, now, child, None);
      agents[child := agents[child].(kind := EyesChild, origin := Relay, secret := Some(minted))]
  }

  // ---------------------------------------------------------------- picking a broker

  const PROVIDER_ORDER := ["claude", "codex", "grok"]

  function DefaultProvider(caps: set<Cap>): Option<string> {
    if Provider("claude") in caps then Some("claude")
    else if Provider("codex") in caps then Some("codex")
    else if Provider("grok") in caps then Some("grok")
    else None
  }

  predicate Matches(caps: set<Cap>, runtime: string) {
    && Chrome in caps
    && (if runtime == "" then exists p :: p in PROVIDER_ORDER && Provider(p) in caps else Provider(runtime) in caps)
  }

  predicate Candidate(s: Store, now: int, row: Address) {
    && row in s.agents && row.scope.Host?
    && s.agents[row].kind == Launcher && s.agents[row].origin == Relay
    && s.agents[row].status != Gone && s.agents[row].lastSeen >= now - LAUNCHER_WINDOW
  }

  predicate Busy(s: Store, session: Session) {
    exists id :: id in s.tasks && s.tasks[id].launcher.agent == session && HoldsBroker(s.tasks[id])
  }

  /** The pick's ORDER BY: matching first, then free, then most recently seen. */
  predicate SortsBefore(s: Store, runtime: string, a: Address, b: Address)
    requires a in s.agents && b in s.agents
  {
    var ma, mb := Matches(s.agents[a].caps, runtime), Matches(s.agents[b].caps, runtime);
    var ba, bb := Busy(s, a.agent), Busy(s, b.agent);
    if ma != mb then ma
    else if ba != bb then bb
    else s.agents[a].lastSeen > s.agents[b].lastSeen
  }

  /** The row LIMIT 1 keeps; ties are the database's own choice. */
  ghost predicate IsTopRow(s: Store, now: int, runtime: string, top: Option<Address>) {
    match top
    case None => forall row :: !Candidate(s, now, row)
    case Some(row) =>
      && Candidate(s, now, row)
      && (forall other :: Candidate(s, now, other) ==> !SortsBefore(s, runtime, other, row))
  }

  datatype Pick = Picked(row: Address) | NotPicked(error: Error)

  function PickLauncher(s: Store, runtime: string, top: Option<Address>): Pick
    requires top.Some? ==> top.value in s.agents
  {
    match top
    case None => NotPicked(NoLauncher)
    case Some(row) =>
      if !Matches(s.agents[row].caps, runtime) then NotPicked(NoProvider)
      else if Busy(s, row.agent) then NotPicked(EyesBusy)
      else Picked(row)
  }

  predicate RuntimeChar(c: char) {
    'a' <= c <= 'z' || '0' <= c <= '9' || c == '.' || c == '_' || c == '-'
  }

  predicate ValidRuntime(r: string) {
    |r| <= 32 && forall c :: c in r ==> RuntimeChar(c)
  }

  datatype Request = Request(requester: Address, runtime: string, brief: string, deadlineS: int, overhead: nat)

  /** AssignEyesTask behind the daemon's identity check: the requester is a local row of its workspace. */
  function Assign(s: Store, now: int, req: Request, id: TaskId, top: Option<Address>): (Store, Option<Error>)
    requires top.Some? ==> top.value in s.agents
  {
    if req.requester !in s.agents then (s, Some(NoAgent))
    else if s.agents[req.requester].origin == Relay then (s, Some(RelayAuth))
    else if !ValidRuntime(req.runtime) then (s, Some(BadRuntime))
    else
      match PickLauncher(s, req.runtime, top)
      case NotPicked(e) => (s, Some(e))
      case Picked(row) =>
        var runtime := if req.runtime == "" then DefaultProvider(s.agents[row].caps) else Some(req.runtime);
        if runtime.None? then (s, Some(NoProvider))
        else
          var deadline := EyesDeadline(req.deadlineS);
          var t := Task(req.requester, row, runtime.value, Queued, false, deadline, now, now, Progress(0, "", 0, 0), 0);
          var s1 := s.(tasks := s.tasks[id := t]);
          var body := LaunchBody(id, runtime.value, req.brief, req.requester, deadline, req.overhead);
          match Post(s1, now, req.requester, row.scope, Some(row.agent), body, Some(req.requester), Some(id))
          case None => (s, Some(NoAgent))
          case Some(s2) => (s2, None)
  }

  // ---------------------------------------------------------------- lifecycle moves

  datatype Role = RoleLauncher | RoleChild | RoleRequester | RoleSystem | NoRole

  /** The authenticated caller of a move; `System` is the deadline sweep. */
  datatype Actor =
    | System
    | Caller(scope: Scope, session: Option<Session>, origin: Origin, ref: Address)

  /** eyesEdges: who may ask for a state, and from which states. */
  function Edges(to: TaskState, role: Role): Option<set<TaskState>> {
    match (to, role)
    case (Accepted, RoleLauncher) => Some({Queued})
    case (Done, RoleChild) => Some({Accepted})
    case (Failed, RoleChild) => Some({Queued, Accepted})
    case (Failed, RoleLauncher) => Some({Queued})
    case (Failed, RoleSystem) => Some({Queued, Accepted})
    case (Cancelled, RoleRequester) => Some({Queued, Accepted})
    case _ => None
  }

  predicate ActsFor(s: Store, scope: Scope, agent: Session, owner: Session) {
    agent == owner ||
    (Address(scope, agent) in s.agents && s.agents[Address(scope, agent)].parent == Some(owner) &&
     Address(scope, owner) in s.agents)
  }

  function RoleOf(s: Store, id: TaskId, t: Task, a: Actor): Role {
    if a.System? then RoleSystem
    else if a.origin == Relay && a.session == Some(Eyes(id)) && a.scope == t.requester.scope then
      if RelayKind(s.agents, ChildRow(id, t), EyesChild) then RoleChild else NoRole
    else if a.origin == Relay && a.session == Some(t.launcher.agent) && a.scope == t.launcher.scope then
      if RelayKind(s.agents, t.launcher, Launcher) then RoleLauncher else NoRole
    else if a.origin == Local && a.ref.scope == t.requester.scope &&
         ActsFor(s, t.requester.scope, a.ref.agent, t.requester.agent) then
      RoleRequester
    else NoRole
  }

  /** Does a terminal report on a cancelled task answer its cancel? */
  predicate AcksCancel(s: Store, id: TaskId, t: Task, role: Role, to: TaskState) {
    match role
    case RoleChild => to == Done || to == Failed
    case RoleLauncher => to == Failed && !RelayKind(s.agents, ChildRow(id, t), EyesChild)
    case RoleSystem => to == Failed
    case _ => false
  }

  /** The row a report leaves under: the one the actor proved, else the child, else the broker. */
  function TaskVoice(s: Store, id: TaskId, t: Task, a: Actor): Option<Address> {
    if a.Caller? && a.session.Some? then
      var row := Address(a.scope, a.session.value);
      if row in s.agents then Some(row) else None
    else if ChildRow(id, t) in s.agents then Some(ChildRow(id, t))
    else if t.launcher in s.agents then Some(t.launcher)
    else None
  }

  datatype Letter = Letter(from: Address, to: Address, body: Body) | NobodyToTell | NoParty(error: Error)

  /** eyesMail: the message a move implies, or why there is none. */
  function EyesMail(s: Store, id: TaskId, t: Task, role: Role, a: Actor, body: Body): Letter {
    if role == RoleRequester then
      if t.launcher !in s.agents then NobodyToTell
      else if t.requester !in s.agents then NoParty(NoAgent)
      else Letter(t.requester, t.launcher, CancelBody(id))
    else
      var voice := TaskVoice(s, id, t, a);
      if voice.None? || (role == RoleSystem && t.requester !in s.agents) then
        if role == RoleSystem then NobodyToTell else NoParty(NoAgent)
      else Letter(voice.value, t.requester, body)
  }

  datatype Reply = Ok(moved: bool) | Refused(error: Error)

  /** moveEyesTask: the one write path for the ledger. */
  function Move(s: Store, now: int, id: TaskId, to: TaskState, a: Actor, body: Body): (Store, Reply) {
    if to == Queued then (s, Refused(BadTransition))
    else if id !in s.tasks then (s, Refused(UnknownTask))
    else
      var t := s.tasks[id];
      var role := RoleOf(s, id, t, a);
      var from := Edges(to, role);
      if from.None? then (s, Refused(NotYourTask))
      else if t.state == to then (s, Ok(false))
      else if t.state == Cancelled && AcksCancel(s, id, t, role, to) then
        (s.(tasks := s.tasks[id := t.(cancelAcked := true)]), Ok(false))
      else if t.state !in from.value then (s, Refused(BadTransition))
      else
        var moved := s.(tasks := s.tasks[id := t.(state := to, updatedAt := now)]);
        match EyesMail(s, id, t, role, a, body)
        case NoParty(e) => (s, Refused(e))
        case NobodyToTell => (moved, Ok(true))
        case Letter(f, r, b) =>
          match Post(moved, now, f, r.scope, Some(r.agent), b, Some(f), Some(id))
          case None => (s, Refused(NoAgent))
          case Some(s2) => (s2, Ok(true))
  }

  /** taskStates: the state a report body claims. */
  function Claims(body: Body): Option<TaskState> {
    match body
    case AcceptedBody(_, _) => Some(Accepted)
    case ResultBody(_, _) => Some(Done)
    case FailedBody(_, _) => Some(Failed)
    case _ => None
  }

  /** taskReport for a lifecycle body: only the recorded requester may be its target. */
  function Report(s: Store, now: int, a: Actor, target: Address, body: Body): (Store, Reply)
    requires Claims(body).Some?
  {
    if body.task !in s.tasks then (s, Refused(UnknownTask))
    else if target != s.tasks[body.task].requester then (s, Refused(BadTransition))
    else Move(s, now, body.task, Claims(body).value, a, body)
  }

  function Cancel(s: Store, now: int, id: TaskId, a: Actor): (Store, Reply) {
    Move(s, now, id, Cancelled, a, CancelBody(id))
  }

  /** One step of the deadline sweep. */
  function Expire(s: Store, now: int, id: TaskId): (Store, Reply) {
    Move(s, now, id, Failed, System, FailedBody(id, "deadline exceeded"))
  }

  predicate Overdue(s: Store, now: int, id: TaskId) {
    id in s.tasks && HoldsBroker(s.tasks[id]) && s.tasks[id].createdAt + s.tasks[id].deadline < now
  }

  // ---------------------------------------------------------------- progress

  predicate ToolChar(c: char) {
    'a' <= c <= 'z' || 'A' <= c <= 'Z' || '0' <= c <= '9' || c == '_' || c == '-' || c == '.' || c == ':'
  }

  function CleanTool(name: string): string {
    var cut := if |name| > MAX_TOOL then name[..MAX_TOOL] else name;
    if forall c :: c in cut ==> ToolChar(c) then cut else ""
  }

  function Max(a: int, b: int): int { if a > b then a else b }
  function Min(a: int, b: int): int { if a < b then a else b }

  /** nextEyesProgress: fold one sample in, and say whether the requester is due a copy. */
  function NextProgress(prev: Progress, turns: int, tool: string, now: int): (Progress, bool) {
    var t := Min(Max(turns, prev.turns), MAX_TURNS);
    var name := if CleanTool(tool) == "" then CleanTool(prev.tool) else CleanTool(tool);
    var due := prev.mailedAt != 0 && now - prev.mailedAt >= MAIL_INTERVAL && t > prev.mailedTurns;
    var next := if due || prev.mailedAt == 0 then Progress(t, name, now, t)
                else Progress(t, name, prev.mailedAt, prev.mailedTurns);
    (next, due)
  }

  /** writeEyesProgress: stamp the row and mark the task's child seen. */
  function Sampled(s: Store, now: int, id: TaskId, next: Progress): Store
    requires id in s.tasks
  {
    s.(tasks := s.tasks[id := s.tasks[id].(progress := next, heartbeatAt := now)],
       agents := Touch(s.agents, now, ChildRow(id, s.tasks[id])))
  }

  /** RecordEyesProgress: write the sample, and mail a throttled copy. */
  function RecordProgress(s: Store, now: int, id: TaskId, a: Actor, turns: int, tool: string): (Store, Reply) {
    if id !in s.tasks then (s, Refused(UnknownTask))
    else
      var t := s.tasks[id];
      var role := RoleOf(s, id, t, a);
      if role != RoleChild && role != RoleLauncher then (s, Refused(NotYourTask))
      else if t.state != Queued && t.state != Accepted then (s, Refused(TaskNotLive))
      else
        var (next, due) := NextProgress(t.progress, turns, tool, now);
        var s1 := Sampled(s, now, id, next);
        if !due then (s1, Ok(false))
        else
          match EyesMail(s1, id, t, role, a, ProgressBody(id, next.turns, next.tool, now - t.createdAt))
          case NoParty(e) => (s, Refused(e))
          case NobodyToTell => (s1, Ok(false))
          case Letter(f, r, b) =>
            match Post(s1, now, f, r.scope, Some(r.agent), b, Some(f), Some(id))
            case None => (s, Refused(NoAgent))
            case Some(s2) => (s2, Ok(true))
  }

  // ---------------------------------------------------------------- redelivery

  /** The messages a task addressed to its launcher's row, as the redelivery query sees them. */
  predicate ToLauncher(s: Store, id: TaskId, row: Address, m: nat) {
    && m < |s.mail.log| && m in s.mail.kept
    && s.mail.log[m].task == Some(id) && s.mail.log[m].scope == row.scope && s.mail.log[m].to == Some(row.agent)
  }

  /** MIN(id) or MAX(id) over those messages. */
  ghost predicate AtPosition(s: Store, id: TaskId, row: Address, latest: bool, m: nat) {
    && ToLauncher(s, id, row, m)
    && (forall other: nat :: ToLauncher(s, id, row, other) ==> if latest then other <= m else m <= other)
  }

  /** pendingTaskMail's join: is message `m` handed to the broker `session` for task `id`? */
  ghost predicate Pending(s: Store, session: Session, state: TaskState, latest: bool, id: TaskId, m: nat) {
    && id in s.tasks
    && s.tasks[id].launcher.agent == session && s.tasks[id].state == state && !s.tasks[id].cancelAcked
    && (var row := FirstRow(s.agents, session); row.Some? && AtPosition(s, id, row.value, latest, m))
  }

  ghost predicate PendingLaunch(s: Store, session: Session, id: TaskId, m: nat) {
    Pending(s, session, Queued, false, id, m)
  }

  ghost predicate PendingCancel(s: Store, session: Session, id: TaskId, m: nat) {
    Pending(s, session, Cancelled, true, id, m)
  }

  // ---------------------------------------------------------------- purges

  function PurgeAgents(agents: Agents, now: int): Agents {
    map row | row in agents && agents[row].lastSeen >= now - AGENT_TTL :: agents[row]
  }

  function PurgeTasks(s: Store, now: int): Store {
    s.(tasks := map id | id in s.tasks && s.tasks[id].updatedAt >= now - TASK_TTL :: s.tasks[id])
  }

  function PurgeMail(s: Store, now: int): Store {
    s.(mail := Mail.PurgeMessages(s.mail, now))
  }

  function PurgeDeliveries(s: Store): Store {
    s.(mail := Mail.PurgeReceipts(s.mail, set row | row in s.agents :: row.agent))
  }
}
