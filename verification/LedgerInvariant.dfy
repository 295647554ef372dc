/** What every transaction of the ledger keeps. */
module LedgerInvariant {
  import opened Wire
  import opened Ledger
  import opened LedgerRuns
  import Mail

  // ---------------------------------------------------------------- the story a task's mail tells

  /** The lifecycle mail of one task, in the order it was written. */
  function MailOf(log: seq<Message>, id: TaskId): seq<Mark> {
    if log == [] then []
    else
      var last := log[|log| - 1];
      var rest := MailOf(log[..|log| - 1], id);
      if last.task == Some(id) && MarkOf(last.body).Some? then rest + [MarkOf(last.body).value] else rest
  }

  /** One launch; at most one accept after it; then at most one ending, an outcome or a cancel. */
  predicate Story(marks: seq<Mark>) {
    marks in {[Launched], [Launched, AcceptSent], [Launched, OutcomeSent], [Launched, AcceptSent, OutcomeSent],
              [Launched, CancelSent], [Launched, AcceptSent, CancelSent]}
  }

  /** The stories each state allows; only a silent expiry leaves a failed task without its outcome. */
  predicate Fits(state: TaskState, marks: seq<Mark>) {
    match state
    case Queued => marks == [Launched]
    case Accepted => marks == [Launched, AcceptSent]
    case Done => marks == [Launched, AcceptSent, OutcomeSent]
    case Failed => Story(marks) && CancelSent !in marks
    case Cancelled => marks == [Launched, CancelSent] || marks == [Launched, AcceptSent, CancelSent]
  }

  ghost predicate StoriesFit(s: Store) {
    forall id: TaskId ::
      if id in s.tasks then Fits(s.tasks[id].state, MailOf(s.mail.log, id))
      else MailOf(s.mail.log, id) == [] || Story(MailOf(s.mail.log, id))
  }

  // ---------------------------------------------------------------- the other invariants

  /** Launch and cancel go to the launcher's row, everything else to the requester's. */
  predicate Addressed(t: Task, m: Message) {
    var to := if m.body.LaunchBody? || m.body.CancelBody? then t.launcher else t.requester;
    m.scope == to.scope && m.to == Some(to.agent) && m.createdAt >= t.createdAt
  }

  ghost predicate MailAddressed(s: Store) {
    forall m :: 0 <= m < |s.mail.log| && s.mail.log[m].task.Some? && s.mail.log[m].task.value in s.tasks ==>
      Addressed(s.tasks[s.mail.log[m].task.value], s.mail.log[m])
  }

  /** A task stamp is written only with a body of the task family, about that task. */
  ghost predicate StampsHonest(s: Store) {
    forall m :: 0 <= m < |s.mail.log| && s.mail.log[m].task.Some? ==>
      !s.mail.log[m].body.Text? && s.mail.log[m].body.task == s.mail.log[m].task.value
  }

  predicate RowSound(s: Store, t: Task) {
    && t.launcher.scope.Host? && t.requester != t.launcher
    && 0 < t.deadline <= DEADLINE_MAX && t.createdAt <= t.updatedAt <= s.clock
    && (t.cancelAcked ==> t.state == Cancelled)
  }

  ghost predicate RowsSound(s: Store) {
    forall id :: id in s.tasks ==> RowSound(s, s.tasks[id])
  }

  /** At most one task per launcher session holds its broker. */
  ghost predicate Exclusive(s: Store) {
    forall a, b | a in s.tasks && b in s.tasks && HoldsBroker(s.tasks[a]) && HoldsBroker(s.tasks[b]) ::
      s.tasks[a].launcher.agent == s.tasks[b].launcher.agent ==> a == b
  }

  /** A task that holds its broker still has the launcher's row, seen no earlier than the pick allowed. */
  predicate LauncherPresent(s: Store, t: Task) {
    HoldsBroker(t) ==>
      && RelayKind(s.agents, t.launcher, Launcher)
      && s.agents[t.launcher].lastSeen >= t.createdAt - LAUNCHER_WINDOW
  }

  ghost predicate LaunchersPresent(s: Store) {
    forall id :: id in s.tasks ==> LauncherPresent(s, s.tasks[id])
  }

  /** A session id names at most one relay row. */
  ghost predicate RelayUnique(agents: Agents) {
    forall a, b :: IsRelayRow(agents, a) && IsRelayRow(agents, b) && a.agent == b.agent ==> a == b
  }

  ghost predicate ClockAhead(s: Store) {
    && 0 < s.clock
    && (forall row :: row in s.agents ==> s.agents[row].lastSeen <= s.clock)
    && (forall m :: 0 <= m < |s.mail.log| ==> s.mail.log[m].createdAt <= s.clock)
    && Mail.Chronological(s.mail.log)
  }

  /** The mail that redelivery needs is never purged while it is owed. */
  ghost predicate OwedMailKept(s: Store) {
    forall m | 0 <= m < |s.mail.log| && s.mail.log[m].task.Some? && s.mail.log[m].task.value in s.tasks ::
      HoldsBroker(s.tasks[s.mail.log[m].task.value]) ==> m in s.mail.kept
  }

  /** Nothing the sweep has passed over is still overdue at its cutoff. */
  ghost predicate SweepSound(d: Daemon) {
    match d.sweeper
    case Resting => true
    case Sweeping(cutoff, todo) => cutoff <= d.db.clock && forall id :: Overdue(d.db, cutoff, id) ==> id in todo
    case Swept(cutoff) => cutoff <= d.db.clock && forall id :: !Overdue(d.db, cutoff, id)
  }

  ghost predicate StoreInv(s: Store) {
    && StoriesFit(s) && MailAddressed(s) && StampsHonest(s) && RowsSound(s)
    && Exclusive(s) && LaunchersPresent(s) && RelayUnique(s.agents) && ClockAhead(s) && OwedMailKept(s)
  }

  ghost predicate Inv(d: Daemon) {
    StoreInv(d.db) && SweepSound(d)
  }

  // ---------------------------------------------------------------- mail lemmas

  lemma MailOfAppend(log: seq<Message>, m: Message, id: TaskId)
    ensures MailOf(log + [m], id) ==
      if m.task == Some(id) && MarkOf(m.body).Some? then MailOf(log, id) + [MarkOf(m.body).value] else MailOf(log, id)
  {
    assert (log + [m])[..|log|] == log;
  }

  lemma {:induction false} NoMailYet(log: seq<Message>, id: TaskId)
    requires forall m :: 0 <= m < |log| ==> log[m].task != Some(id)
    ensures MailOf(log, id) == []
  {
    if log != [] { NoMailYet(log[..|log| - 1], id); }
  }

  // ---------------------------------------------------------------- transactions on agent rows

  /** How transactions that only touch agent rows may change them. */
  ghost predicate RowsEvolve(old_: Agents, new_: Agents, now: int) {
    && RelayUnique(new_)
    && (forall row :: row in new_ ==> new_[row].lastSeen <= now)
    && (forall row :: row in old_ ==> row in new_ && SameIdentity(old_[row], new_[row]))
  }

  /** A row is seen no earlier than before and keeps its origin; a relay row keeps its kind, a launcher its secret. */
  predicate SameIdentity(a: Agent, b: Agent) {
    && a.lastSeen <= b.lastSeen && b.origin == a.origin
    && (a.origin == Relay && a.kind != NoKind ==> b.kind == a.kind)
    && (a.kind == Launcher ==> b.kind == Launcher && b.secret == a.secret)
  }

  lemma RowsKeepInv(d: Daemon, agents: Agents, now: int)
    requires Inv(d) && d.db.clock <= now && RowsEvolve(d.db.agents, agents, now)
    ensures Inv(At(d.(db := d.db.(agents := agents)), now))
  {
    var s, s' := d.db, d.db.(agents := agents, clock := now);
    assert forall id :: id in s'.tasks ==> LauncherPresent(s, s.tasks[id]);
    assert forall id :: id in s'.tasks ==> RowSound(s, s.tasks[id]);
    assert forall cutoff, id :: Overdue(s', cutoff, id) ==> Overdue(s, cutoff, id);
  }

  /**
   * One row replaced by a row of the same identity, or inserted, leaves relay sessions unique when it is not a second
   * one.
   */
  lemma OneRowEvolves(agents: Agents, now: int, row: Address, a: Agent)
    requires RelayUnique(agents) && forall r :: r in agents ==> agents[r].lastSeen <= now
    requires a.lastSeen <= now && (row in agents ==> SameIdentity(agents[row], a))
    requires row !in agents && a.origin == Relay ==> forall r :: IsRelayRow(agents, r) ==> r.agent != row.agent
    ensures RowsEvolve(agents, agents[row := a], now)
  {
    assert forall r :: IsRelayRow(agents[row := a], r) ==> r == row || IsRelayRow(agents, r);
  }

  ghost predicate RowsFit(agents: Agents, now: int) {
    RelayUnique(agents) && forall r :: r in agents ==> agents[r].lastSeen <= now
  }

  lemma RelayRowEvolves(agents: Agents, now: int, row: Address, caps: set<Cap>, secret: Secret)
    requires RowsFit(agents, now)
    ensures RowsEvolve(agents, RegisterRelay(agents, now, row, caps, secret).0, now)
  {
    var agents' := RegisterRelay(agents, now, row, caps, secret).0;
    if agents' != agents { OneRowEvolves(agents, now, row, agents'[row]); }
  }

  lemma ReissueEvolves(s: Store, now: int, id: TaskId, launcher: Session, secret: Secret, minted: Secret)
    requires RowsFit(s.agents, now)
    ensures RowsEvolve(s.agents, Reissue(s, now, id, launcher, secret, minted), now)
  {
    if ReissueRefused(s, id, launcher, secret).None? {
      var child := ChildRow(id, s.tasks[id]);
      OneRowEvolves(s.agents, now, child, Reissue(s, now, id, launcher, secret, minted)[child]);
    }
  }

  lemma RowOpsEvolve(s: Store, now: int, op: RowOp)
    requires RelayUnique(s.agents) && s.clock <= now && forall r :: r in s.agents ==> s.agents[r].lastSeen <= s.clock
    ensures RowsEvolve(s.agents, RowsAfter(s, now, op), now)
  {
    match op
    case RelayRow(row, caps, secret) => RelayRowEvolves(s.agents, now, row, caps, secret);
    case ReissueRow(id, launcher, secret, minted) => ReissueEvolves(s, now, id, launcher, secret, minted);
    case _ =>
      var agents := RowsAfter(s, now, op);
      if op.row in agents { OneRowEvolves(s.agents, now, op.row, agents[op.row]); }
  }

  // ---------------------------------------------------------------- transactions on mail alone

  /** Inbox reads and purges: the log stays, and no owed mail loses its row. */
  lemma MailKeepsInv(d: Daemon, mail: Mail.Store, now: int)
    requires Inv(d) && d.db.clock <= now && mail.log == d.db.mail.log
    requires OwedMailKept(d.db.(mail := mail))
    ensures Inv(At(d.(db := d.db.(mail := mail)), now))
  {
    var s, s' := d.db, d.db.(mail := mail, clock := now);
    assert forall id :: id in s'.tasks ==> LauncherPresent(s, s.tasks[id]);
    assert forall id :: id in s'.tasks ==> RowSound(s, s.tasks[id]);
    assert forall cutoff, id :: Overdue(s', cutoff, id) ==> Overdue(s, cutoff, id);
  }

  lemma ClockKeepsInv(d: Daemon, now: int)
    requires Inv(d) && d.db.clock <= now
    ensures Inv(At(d, now))
  {
    MailKeepsInv(d, d.db.mail, now);
  }

  lemma PostedLog(mail: Mail.Store, message: Message, targets: set<Session>)
    ensures var mail' := Mail.Posted(mail, message, targets);
      && |mail'.log| == |mail.log| + 1 && mail'.log[|mail.log|] == message && |mail.log| in mail'.kept
      && (forall m :: 0 <= m < |mail.log| ==> mail'.log[m] == mail.log[m] && (m in mail'.kept <==> m in mail.kept))
  {
  }

  lemma SendKeepsStories(s: Store, message: Message, targets: set<Session>)
    requires StoriesFit(s) && message.task == None
    ensures StoriesFit(s.(mail := Mail.Posted(s.mail, message, targets)))
  {
    forall id ensures MailOf(Mail.Posted(s.mail, message, targets).log, id) == MailOf(s.mail.log, id) {
      MailOfAppend(s.mail.log, message, id);
    }
  }

  lemma SendKeepsInv(d: Daemon, now: int, message: Message, targets: set<Session>)
    requires Inv(d) && d.db.clock <= now && message.createdAt == now && message.task == None
    ensures Inv(At(d.(db := d.db.(mail := Mail.Posted(d.db.mail, message, targets))), now))
  {
    var s, s' := d.db, d.db.(mail := Mail.Posted(d.db.mail, message, targets), clock := now);
    SendKeepsStories(s, message, targets);
    PostedLog(s.mail, message, targets);
    PostKeepsClock(s, now, message, targets);
    assert forall id :: id in s'.tasks ==> LauncherPresent(s, s.tasks[id]);
    assert forall id :: id in s'.tasks ==> RowSound(s, s.tasks[id]);
    assert forall cutoff, id :: Overdue(s', cutoff, id) ==> Overdue(s, cutoff, id);
  }

  lemma PostKeepsClock(s: Store, now: int, message: Message, targets: set<Session>)
    requires ClockAhead(s) && s.clock <= now && message.createdAt == now
    ensures ClockAhead(s.(mail := Mail.Posted(s.mail, message, targets), clock := now))
  {
  }

  lemma PurgeMailKeepsOwed(d: Daemon)
    requires Inv(d) && d.sweeper.Swept?
    ensures OwedMailKept(PurgeMail(d.db, d.sweeper.cutoff))
  {
    var s, cutoff := d.db, d.sweeper.cutoff;
    forall m | 0 <= m < |s.mail.log| && s.mail.log[m].task.Some? && s.mail.log[m].task.value in s.tasks &&
               HoldsBroker(s.tasks[s.mail.log[m].task.value])
      ensures !Mail.Purgeable(s.mail, cutoff, m)
    {
      var id := s.mail.log[m].task.value;
      assert !Overdue(s, cutoff, id);
      assert RowSound(s, s.tasks[id]) && Addressed(s.tasks[id], s.mail.log[m]);
    }
  }

  // ---------------------------------------------------------------- transactions on one task

  /** The state after writing one task row and, perhaps, the message that goes with it. */
  function Written(s: Store, id: TaskId, t: Task, message: Option<Message>, targets: set<Session>): Store {
    s.(tasks := s.tasks[id := t],
       mail := if message.Some? then Mail.Posted(s.mail, message.value, targets) else s.mail)
  }

  predicate SameJob(t: Task, t': Task) {
    && t'.requester == t.requester && t'.launcher == t.launcher
    && t'.deadline == t.deadline && t'.createdAt == t.createdAt && t'.updatedAt >= t.updatedAt
    && (HoldsBroker(t') ==> HoldsBroker(t))
    && (t'.cancelAcked ==> t'.state == Cancelled)
  }

  /** The message that goes with a task's row carries that task's stamp and the row's address. */
  predicate GoesWith(t: Task, id: TaskId, now: int, message: Option<Message>) {
    message.Some? ==>
      && message.value.task == Some(id) && message.value.createdAt == now
      && !message.value.body.Text? && message.value.body.task == id
      && Addressed(t, message.value)
  }

  lemma WriteKeepsStories(s: Store, id: TaskId, t': Task, now: int, message: Option<Message>, targets: set<Session>)
    requires StoriesFit(s) && GoesWith(t', id, now, message)
    requires Fits(t'.state, MailOf(Written(s, id, t', message, targets).mail.log, id))
    ensures StoriesFit(Written(s, id, t', message, targets))
  {
    if message.Some? {
      forall other ensures other != id ==>
        MailOf(Written(s, id, t', message, targets).mail.log, other) == MailOf(s.mail.log, other)
      {
        MailOfAppend(s.mail.log, message.value, other);
      }
    }
  }

  lemma WriteKeepsMail(s: Store, id: TaskId, t': Task, now: int, message: Option<Message>, targets: set<Session>)
    requires MailAddressed(s) && StampsHonest(s) && OwedMailKept(s) && GoesWith(t', id, now, message)
    requires id in s.tasks && SameJob(s.tasks[id], t')
    ensures var s' := Written(s, id, t', message, targets); MailAddressed(s') && StampsHonest(s') && OwedMailKept(s')
  {
    if message.Some? { PostedLog(s.mail, message.value, targets); }
    var s' := Written(s, id, t', message, targets);
    forall m | 0 <= m < |s'.mail.log| && s'.mail.log[m].task.Some? && s'.mail.log[m].task.value in s'.tasks
      ensures Addressed(s'.tasks[s'.mail.log[m].task.value], s'.mail.log[m])
    {
      if m < |s.mail.log| { assert Addressed(s.tasks[s.mail.log[m].task.value], s.mail.log[m]); }
    }
  }

  lemma WriteKeepsRows(s: Store, id: TaskId, t': Task, now: int)
    requires RowsSound(s) && Exclusive(s) && LaunchersPresent(s) && s.clock <= now
    requires id in s.tasks && SameJob(s.tasks[id], t') && t'.updatedAt <= now
    ensures var s' := s.(tasks := s.tasks[id := t'], clock := now);
      RowsSound(s') && Exclusive(s') && LaunchersPresent(s')
  {
    var s' := s.(tasks := s.tasks[id := t'], clock := now);
    forall other | other in s'.tasks ensures LauncherPresent(s', s'.tasks[other]) && RowSound(s', s'.tasks[other]) {
      assert LauncherPresent(s, s.tasks[other]) && RowSound(s, s.tasks[other]);
    }
  }

  /** No task becomes overdue at a cutoff the clock has passed. */
  ghost predicate NoneOverdueAnew(s: Store, s': Store) {
    forall cutoff, id :: cutoff <= s.clock && Overdue(s', cutoff, id) ==> Overdue(s, cutoff, id)
  }

  lemma WriteKeepsInv(d: Daemon, now: int, id: TaskId, t': Task, message: Option<Message>, targets: set<Session>)
    requires Inv(d) && d.db.clock <= now && id in d.db.tasks && SameJob(d.db.tasks[id], t') && t'.updatedAt <= now
    requires GoesWith(t', id, now, message)
    requires Fits(t'.state, MailOf(Written(d.db, id, t', message, targets).mail.log, id))
    ensures Inv(At(d.(db := Written(d.db, id, t', message, targets)), now))
  {
    var s := d.db;
    WriteKeepsStories(s, id, t', now, message, targets);
    WriteKeepsMail(s, id, t', now, message, targets);
    WriteKeepsRows(s, id, t', now);
    if message.Some? { PostKeepsClock(s, now, message.value, targets); }
    WrittenAssembles(d, now, id, t', message, targets);
  }

  lemma WrittenAssembles(d: Daemon, now: int, id: TaskId, t': Task, message: Option<Message>, targets: set<Session>)
    requires d.db.clock <= now && id in d.db.tasks && SameJob(d.db.tasks[id], t') && SweepSound(d)
    requires RelayUnique(d.db.agents)
    requires var s' := Written(d.db, id, t', message, targets);
      && StoriesFit(s') && MailAddressed(s') && StampsHonest(s') && OwedMailKept(s') && ClockAhead(s'.(clock := now))
    requires var s' := d.db.(tasks := d.db.tasks[id := t'], clock := now);
      && RowsSound(s') && Exclusive(s') && LaunchersPresent(s')
    ensures Inv(At(d.(db := Written(d.db, id, t', message, targets)), now))
  {
    var s' := Written(d.db, id, t', message, targets).(clock := now);
    assert forall other :: other in s'.tasks ==>
      RowSound(d.db.(tasks := d.db.tasks[id := t'], clock := now), s'.tasks[other]) &&
      LauncherPresent(d.db.(tasks := d.db.tasks[id := t'], clock := now), s'.tasks[other]);
    assert NoneOverdueAnew(d.db, s');
  }

  /** The mark a move to `to` leaves in the task's story. */
  function MarkFor(to: TaskState): Mark {
    if to == Accepted then AcceptSent else if to == Cancelled then CancelSent else OutcomeSent
  }

  predicate Speaks(body: Body, id: TaskId, to: TaskState) {
    if to == Cancelled then body == CancelBody(id) else Claims(body) == Some(to) && body.task == id
  }

  /** A permitted edge, with or without its mail, leads to a story the new state allows. */
  lemma EdgeFits(to: TaskState, role: Role, from: TaskState, marks: seq<Mark>)
    requires Edges(to, role).Some? && from in Edges(to, role).value && Fits(from, marks)
    ensures Fits(to, marks + [MarkFor(to)])
    ensures role == RoleSystem ==> Fits(to, marks)
  {
    assert [Launched] + [MarkFor(to)] == [Launched, MarkFor(to)];
    assert [Launched, AcceptSent] + [MarkFor(to)] == [Launched, AcceptSent, MarkFor(to)];
  }

  /** The message a letter about a task becomes. */
  function Posting(now: int, from: Address, to: Address, body: Body, id: TaskId): Message {
    Message(to.scope, from.agent, Mail.Stamped(from, to.scope), Some(to.agent), body, now, Some(from), Some(id))
  }

  /** What a move writes when it commits: the row, and the letter unless nobody is left for it. */
  datatype Effect = Nothing | Acked | Silent | Mailed(from: Address, to: Address, body: Body)

  function EffectOf(s: Store, id: TaskId, to: TaskState, a: Actor, body: Body): Effect {
    if to == Queued || id !in s.tasks then Nothing
    else
      var t := s.tasks[id];
      var role := RoleOf(s, id, t, a);
      if Edges(to, role).None? || t.state == to then Nothing
      else if t.state == Cancelled && AcksCancel(s, id, t, role, to) then Acked
      else if t.state !in Edges(to, role).value then Nothing
      else
        match EyesMail(s, id, t, role, a, body)
        case NoParty(_) => Nothing
        case NobodyToTell => Silent
        case Letter(f, r, b) => if r in s.agents then Mailed(f, r, b) else Nothing
  }

  lemma MoveEffect(s: Store, now: int, id: TaskId, to: TaskState, a: Actor, body: Body)
    ensures var (s', reply) := Move(s, now, id, to, a, body);
      match EffectOf(s, id, to, a, body)
      case Nothing => s' == s && reply != Ok(true)
      case Acked => s' == Written(s, id, s.tasks[id].(cancelAcked := true), None, {}) && reply == Ok(false)
      case Silent => s' == Written(s, id, s.tasks[id].(state := to, updatedAt := now), None, {}) && reply == Ok(true)
      case Mailed(f, r, b) =>
        s' == Written(s, id, s.tasks[id].(state := to, updatedAt := now), Some(Posting(now, f, r, b, id)), {r.agent})
        && reply == Ok(true)
  {
    assert forall r: Address :: Address(r.scope, r.agent) == r;
  }

  lemma EffectSound(s: Store, id: TaskId, to: TaskState, a: Actor, body: Body)
    requires StoriesFit(s) && LaunchersPresent(s) && Speaks(body, id, to)
    ensures var e := EffectOf(s, id, to, a, body);
      && (e.Acked? ==> s.tasks[id].state == Cancelled)
      && (e.Silent? || e.Mailed? ==>
            && HoldsBroker(s.tasks[id]) && s.tasks[id].state != Cancelled && to != Queued
            && Fits(to, MailOf(s.mail.log, id) + [MarkFor(to)]))
      && (e.Silent? ==> a.System? && Fits(to, MailOf(s.mail.log, id)))
      && (e.Mailed? ==>
            && e.to == (if to == Cancelled then s.tasks[id].launcher else s.tasks[id].requester)
            && Speaks(e.body, id, to))
  {
    var e := EffectOf(s, id, to, a, body);
    if e.Silent? || e.Mailed? {
      var t := s.tasks[id];
      assert LauncherPresent(s, t);
      EdgeFits(to, RoleOf(s, id, t, a), t.state, MailOf(s.mail.log, id));
    }
  }

  lemma MoveKeepsInv(d: Daemon, now: int, id: TaskId, to: TaskState, a: Actor, body: Body)
    requires Inv(d) && d.db.clock <= now && Speaks(body, id, to)
    ensures Inv(At(d.(db := Move(d.db, now, id, to, a, body).0), now))
  {
    var s := d.db;
    MoveEffect(s, now, id, to, a, body);
    EffectSound(s, id, to, a, body);
    var e := EffectOf(s, id, to, a, body);
    if e.Nothing? {
      ClockKeepsInv(d, now);
    } else {
      assert RowSound(s, s.tasks[id]);
      if e.Mailed? {
        var message := Posting(now, e.from, e.to, e.body, id);
        MailOfAppend(s.mail.log, message, id);
        WriteKeepsInv(d, now, id, s.tasks[id].(state := to, updatedAt := now), Some(message), {e.to.agent});
      } else if e.Silent? {
        WriteKeepsInv(d, now, id, s.tasks[id].(state := to, updatedAt := now), None, {});
      } else {
        WriteKeepsInv(d, now, id, s.tasks[id].(cancelAcked := true), None, {});
      }
    }
  }

  // ---------------------------------------------------------------- progress

  /** A sample writes the child's row, the task's progress, and perhaps one copy to the requester. */
  lemma ProgressEffect(s: Store, now: int, id: TaskId, a: Actor, turns: int, tool: string)
    returns (next: Progress, message: Option<Message>, targets: set<Session>)
    requires id in s.tasks
    ensures var s' := RecordProgress(s, now, id, a, turns, tool).0;
      s' == s || s' == Written(s.(agents := Touch(s.agents, now, ChildRow(id, s.tasks[id]))), id,
                               s.tasks[id].(progress := next, heartbeatAt := now), message, targets)
    ensures next == NextProgress(s.tasks[id].progress, turns, tool, now).0
    ensures message.Some? ==>
      && NextProgress(s.tasks[id].progress, turns, tool, now).1
      && message.value.body.ProgressBody? && message.value.body.turns == next.turns
    ensures message.None? && RecordProgress(s, now, id, a, turns, tool).0 != s ==>
      !NextProgress(s.tasks[id].progress, turns, tool, now).1
    ensures message.Some? ==>
      && MarkOf(message.value.body).None? && !message.value.body.Text? && message.value.body.task == id
      && message.value.task == Some(id) && message.value.createdAt == now
      && message.value.scope == s.tasks[id].requester.scope && message.value.to == Some(s.tasks[id].requester.agent)
      && !message.value.body.LaunchBody? && !message.value.body.CancelBody?
  {
    var t := s.tasks[id];
    next := NextProgress(t.progress, turns, tool, now).0;
    message, targets := None, {};
    var s1 := Sampled(s, now, id, next);
    var copy := ProgressBody(id, next.turns, next.tool, now - t.createdAt);
    var letter := EyesMail(s1, id, t, RoleOf(s, id, t, a), a, copy);
    var mails := NextProgress(t.progress, turns, tool, now).1 && letter.Letter?;
    if RecordProgress(s, now, id, a, turns, tool).0 != s && mails {
      message, targets := Some(Posting(now, letter.from, letter.to, letter.body, id)), {letter.to.agent};
    }
  }

  lemma ProgressKeepsInv(d: Daemon, now: int, id: TaskId, a: Actor, turns: int, tool: string)
    requires Inv(d) && d.db.clock <= now
    ensures Inv(At(d.(db := RecordProgress(d.db, now, id, a, turns, tool).0), now))
  {
    var s := d.db;
    if id !in s.tasks || RecordProgress(s, now, id, a, turns, tool).0 == s {
      ClockKeepsInv(d, now);
    } else {
      var next, message, targets := ProgressEffect(s, now, id, a, turns, tool);
      TouchKeepsInv(d, now, ChildRow(id, s.tasks[id]));
      var touched := d.(db := s.(agents := Touch(s.agents, now, ChildRow(id, s.tasks[id]))));
      SampleKeepsInv(At(touched, now), now, id, next, message, targets);
    }
  }

  lemma TouchKeepsInv(d: Daemon, now: int, row: Address)
    requires Inv(d) && d.db.clock <= now
    ensures Inv(At(d.(db := d.db.(agents := Touch(d.db.agents, now, row))), now))
  {
    RowOpsEvolve(d.db, now, TouchRow(row));
    RowsKeepInv(d, Touch(d.db.agents, now, row), now);
  }

  lemma SampleKeepsInv(d: Daemon, now: int, id: TaskId, next: Progress, message: Option<Message>, targets: set<Session>)
    requires Inv(d) && d.db.clock <= now && id in d.db.tasks && GoesWith(d.db.tasks[id], id, now, message)
    requires message.Some? ==> MarkOf(message.value.body).None?
    ensures var t := d.db.tasks[id].(progress := next, heartbeatAt := now);
      Inv(At(d.(db := Written(d.db, id, t, message, targets)), now))
  {
    assert RowSound(d.db, d.db.tasks[id]);
    if message.Some? { MailOfAppend(d.db.mail.log, message.value, id); }
    WriteKeepsInv(d, now, id, d.db.tasks[id].(progress := next, heartbeatAt := now), message, targets);
  }

  // ---------------------------------------------------------------- assignment

  lemma AssignEffect(s: Store, now: int, req: Request, id: TaskId, top: Option<Address>)
    requires IsTopRow(s, now, req.runtime, top) && Assign(s, now, req, id, top).1.None?
    ensures top.Some? && Candidate(s, now, top.value) && !Busy(s, top.value.agent)
    ensures req.requester in s.agents && s.agents[req.requester].origin == Local
    ensures var s' := Assign(s, now, req, id, top).0;
      && id in s'.tasks && NewTask(s'.tasks[id], req, top.value, now)
      && s' == Written(s, id, s'.tasks[id], Some(LaunchPosting(now, id, s'.tasks[id], req)), {top.value.agent})
  {
  }

  predicate NewTask(t: Task, req: Request, launcher: Address, now: int) {
    && t.requester == req.requester && t.launcher == launcher && t.state == Queued && !t.cancelAcked
    && 0 < t.deadline <= DEADLINE_MAX && t.createdAt == now && t.updatedAt == now
    && t.progress == Progress(0, "", 0, 0)
  }

  function LaunchPosting(now: int, id: TaskId, t: Task, req: Request): Message {
    var body := LaunchBody(id, t.runtime, req.brief, t.requester, t.deadline, req.overhead);
    Posting(now, t.requester, t.launcher, body, id)
  }

  lemma NewTaskKeepsMail(s: Store, id: TaskId, t: Task, now: int, req: Request, targets: set<Session>)
    requires StoriesFit(s) && MailAddressed(s) && StampsHonest(s) && OwedMailKept(s) && Fresh(s, id)
    requires t.state == Queued && t.createdAt == now
    ensures var s' := Written(s, id, t, Some(LaunchPosting(now, id, t, req)), targets);
      StoriesFit(s') && MailAddressed(s') && StampsHonest(s') && OwedMailKept(s')
  {
    var message := LaunchPosting(now, id, t, req);
    PostedLog(s.mail, message, targets);
    NewTaskKeepsStories(s, id, t, now, req, targets);
  }

  lemma NewTaskKeepsStories(s: Store, id: TaskId, t: Task, now: int, req: Request, targets: set<Session>)
    requires StoriesFit(s) && Fresh(s, id) && t.state == Queued
    ensures StoriesFit(Written(s, id, t, Some(LaunchPosting(now, id, t, req)), targets))
  {
    var message := LaunchPosting(now, id, t, req);
    NoMailYet(s.mail.log, id);
    forall other ensures MailOf(s.mail.log + [message], other) ==
      if other == id then [Launched] else MailOf(s.mail.log, other)
    {
      MailOfAppend(s.mail.log, message, other);
    }
  }

  lemma NewTaskKeepsRows(s: Store, now: int, req: Request, id: TaskId, t: Task)
    requires RowsSound(s) && Exclusive(s) && LaunchersPresent(s) && s.clock <= now && id !in s.tasks
    requires NewTask(t, req, t.launcher, now) && Candidate(s, now, t.launcher) && !Busy(s, t.launcher.agent)
    requires req.requester != t.launcher
    ensures var s' := s.(tasks := s.tasks[id := t], clock := now);
      RowsSound(s') && Exclusive(s') && LaunchersPresent(s')
  {
    var s' := s.(tasks := s.tasks[id := t], clock := now);
    forall other | other in s'.tasks ensures LauncherPresent(s', s'.tasks[other]) && RowSound(s', s'.tasks[other]) {
      if other != id { assert LauncherPresent(s, s.tasks[other]) && RowSound(s, s.tasks[other]); }
    }
  }

  lemma NewTaskKeepsInv(d: Daemon, now: int, req: Request, id: TaskId, t: Task, targets: set<Session>)
    requires Inv(d) && d.db.clock <= now && Fresh(d.db, id)
    requires NewTask(t, req, t.launcher, now) && Candidate(d.db, now, t.launcher) && !Busy(d.db, t.launcher.agent)
    requires req.requester != t.launcher
    ensures Inv(At(d.(db := Written(d.db, id, t, Some(LaunchPosting(now, id, t, req)), targets)), now))
  {
    var s, message := d.db, LaunchPosting(now, id, t, req);
    var s' := Written(s, id, t, Some(message), targets).(clock := now);
    NewTaskKeepsMail(s, id, t, now, req, targets);
    NewTaskKeepsRows(s, now, req, id, t);
    PostKeepsClock(s, now, message, targets);
    assert forall other :: other in s'.tasks ==>
      RowSound(s.(tasks := s.tasks[id := t], clock := now), s'.tasks[other]) &&
      LauncherPresent(s.(tasks := s.tasks[id := t], clock := now), s'.tasks[other]);
    assert NoneOverdueAnew(s, s');
  }

  /** An assignment is a new task and its launch; the requester is local and the launcher is not, so they differ. */
  lemma AssignedTask(s: Store, now: int, req: Request, id: TaskId, top: Option<Address>) returns (t: Task)
    requires IsTopRow(s, now, req.runtime, top) && Assign(s, now, req, id, top).1.None?
    ensures NewTask(t, req, t.launcher, now) && Candidate(s, now, t.launcher) && !Busy(s, t.launcher.agent)
    ensures req.requester != t.launcher
    ensures Assign(s, now, req, id, top).0 ==
      Written(s, id, t, Some(LaunchPosting(now, id, t, req)), {t.launcher.agent})
  {
    AssignEffect(s, now, req, id, top);
    t := Assign(s, now, req, id, top).0.tasks[id];
  }

  lemma AssignKeepsInv(d: Daemon, now: int, req: Request, id: TaskId, top: Option<Address>)
    requires Inv(d) && d.db.clock <= now && Fresh(d.db, id) && IsTopRow(d.db, now, req.runtime, top)
    ensures Inv(At(d.(db := Assign(d.db, now, req, id, top).0), now))
  {
    if Assign(d.db, now, req, id, top).1.Some? {
      assert Assign(d.db, now, req, id, top).0 == d.db;
      ClockKeepsInv(d, now);
    } else {
      var t := AssignedTask(d.db, now, req, id, top);
      NewTaskKeepsInv(d, now, req, id, t, {t.launcher.agent});
    }
  }

  // ---------------------------------------------------------------- one shape for every task transaction

  /** What a task transaction writes: one row, perhaps its child's presence, perhaps one message. */
  datatype Write =
    | NoWrite
    | Write(id: TaskId, t: Task, seen: bool, message: Option<Message>, targets: set<Session>, turns: int, tool: string)

  function Wrote(s: Store, now: int, w: Write): Store
    requires w.Write? && w.seen ==> w.id in s.tasks
  {
    if w.NoWrite? then s
    else
      var agents := if w.seen then Touch(s.agents, now, ChildRow(w.id, s.tasks[w.id])) else s.agents;
      Written(s.(agents := agents), w.id, w.t, w.message, w.targets)
  }

  /** A live task changes state once, forward. */
  predicate Moved(t: Task, t': Task, now: int) {
    && t' == t.(state := t'.state, updatedAt := now)
    && (t.state == Queued || t.state == Accepted) && t'.state != Queued && t'.state != t.state
  }

  predicate Answered(t: Task, t': Task) {
    t.state == Cancelled && t' == t.(cancelAcked := true)
  }

  predicate SampledOnce(t: Task, t': Task, now: int, turns: int, tool: string) {
    t' == t.(progress := NextProgress(t.progress, turns, tool, now).0, heartbeatAt := now)
  }

  /** A progress copy goes with a sample that was due one, and says what the sample stored. */
  predicate CopySound(s: Store, now: int, w: Write)
    requires w.Write?
  {
    var isCopy := w.message.Some? && w.message.value.body.ProgressBody?;
    && (isCopy <==> w.seen && w.id in s.tasks && NextProgress(s.tasks[w.id].progress, w.turns, w.tool, now).1)
    && (isCopy ==> w.message.value.body.turns == w.t.progress.turns && w.message.value.createdAt == now)
  }

  /** A new row, a sample, a move or the answer to a cancel; and the message, if any, is about that task. */
  ghost predicate WriteSound(s: Store, now: int, w: Write) {
    w.Write? ==>
      && (w.message.Some? ==> w.message.value.task == Some(w.id)) && CopySound(s, now, w)
      && (if w.id !in s.tasks then
            Fresh(s, w.id) && !w.seen && w.t.progress == Progress(0, "", 0, 0) && w.t.createdAt == now
          else
            var t := s.tasks[w.id];
            if w.seen then SampledOnce(t, w.t, now, w.turns, w.tool) else Moved(t, w.t, now) || Answered(t, w.t))
  }

  lemma MoveWrites(s: Store, now: int, id: TaskId, to: TaskState, a: Actor, body: Body) returns (w: Write)
    requires Speaks(body, id, to)
    ensures WriteSound(s, now, w) && Move(s, now, id, to, a, body).0 == Wrote(s, now, w)
  {
    MoveEffect(s, now, id, to, a, body);
    match EffectOf(s, id, to, a, body)
    case Nothing => w := NoWrite;
    case Acked => w := Write(id, s.tasks[id].(cancelAcked := true), false, None, {}, 0, "");
    case Silent => w := Write(id, s.tasks[id].(state := to, updatedAt := now), false, None, {}, 0, "");
    case Mailed(f, r, b) =>
      var moved := s.tasks[id].(state := to, updatedAt := now);
      w := Write(id, moved, false, Some(Posting(now, f, r, b, id)), {r.agent}, 0, "");
  }

  lemma AssignWrites(s: Store, now: int, req: Request, id: TaskId, top: Option<Address>) returns (w: Write)
    requires Fresh(s, id) && IsTopRow(s, now, req.runtime, top)
    ensures WriteSound(s, now, w) && Assign(s, now, req, id, top).0 == Wrote(s, now, w)
  {
    w := NoWrite;
    if Assign(s, now, req, id, top).1.None? {
      var t := AssignedTask(s, now, req, id, top);
      w := Write(id, t, false, Some(LaunchPosting(now, id, t, req)), {t.launcher.agent}, 0, "");
    }
  }

  lemma ProgressWrites(s: Store, now: int, id: TaskId, a: Actor, turns: int, tool: string) returns (w: Write)
    ensures WriteSound(s, now, w) && RecordProgress(s, now, id, a, turns, tool).0 == Wrote(s, now, w)
  {
    w := NoWrite;
    if id in s.tasks && RecordProgress(s, now, id, a, turns, tool).0 != s {
      var next, message, targets := ProgressEffect(s, now, id, a, turns, tool);
      w := Write(id, s.tasks[id].(progress := next, heartbeatAt := now), true, message, targets, turns, tool);
    }
  }

  lemma TaskOpWrites(s: Store, now: int, op: TaskOp) returns (w: Write)
    requires TaskEnabled(s, now, op)
    ensures WriteSound(s, now, w) && TasksAfter(s, now, op) == Wrote(s, now, w)
  {
    match op
    case AssignTask(req, id, top) => w := AssignWrites(s, now, req, id, top);
    case ReportTask(a, target, body) =>
      w := NoWrite;
      if TasksAfter(s, now, op) != s { w := MoveWrites(s, now, body.task, Claims(body).value, a, body); }
    case CancelTask(id, a) => w := MoveWrites(s, now, id, Cancelled, a, CancelBody(id));
    case ProgressTask(id, a, turns, tool) => w := ProgressWrites(s, now, id, a, turns, tool);
  }

  lemma SweepWrites(s: Store, now: int, id: TaskId) returns (w: Write)
    ensures WriteSound(s, now, w) && Expire(s, now, id).0 == Wrote(s, now, w)
  {
    w := MoveWrites(s, now, id, Failed, System, FailedBody(id, "deadline exceeded"));
  }

  // ---------------------------------------------------------------- the housekeeper

  /** After the sweep, a task that still holds its broker is young enough for its launcher to be kept. */
  lemma PurgeAgentsKeepsInv(d: Daemon, now: int)
    requires Inv(d) && d.db.clock <= now && d.sweeper.Swept?
    ensures Inv(At(d.(db := d.db.(agents := PurgeAgents(d.db.agents, d.sweeper.cutoff))), now))
  {
    var s, cutoff := d.db, d.sweeper.cutoff;
    var s' := s.(agents := PurgeAgents(s.agents, cutoff), clock := now);
    forall id | id in s'.tasks ensures LauncherPresent(s', s'.tasks[id]) && RowSound(s', s'.tasks[id]) {
      assert !Overdue(s, cutoff, id);
      assert RowSound(s, s.tasks[id]) && LauncherPresent(s, s.tasks[id]);
    }
    assert forall row :: IsRelayRow(s'.agents, row) ==> IsRelayRow(s.agents, row);
    assert forall id :: Overdue(s', cutoff, id) ==> Overdue(s, cutoff, id);
  }

  /** No task that still holds its broker is ever purged, so a purged task's story is closed. */
  lemma PurgeTasksKeepsInv(d: Daemon, now: int)
    requires Inv(d) && d.db.clock <= now && d.sweeper.Swept?
    ensures Inv(At(d.(db := PurgeTasks(d.db, d.sweeper.cutoff)), now))
  {
    var s, cutoff := d.db, d.sweeper.cutoff;
    var s' := PurgeTasks(s, cutoff).(clock := now);
    forall id | id in s.tasks ensures LauncherPresent(s, s.tasks[id]) && RowSound(s, s.tasks[id]) {
    }
    assert forall id :: Overdue(s', cutoff, id) ==> Overdue(s, cutoff, id);
  }

  /** A sweep step releases its task whatever rows are left, and touches no other. */
  lemma ExpireSettles(s: Store, now: int, id: TaskId)
    requires RowsSound(s)
    ensures var s' := Expire(s, now, id).0;
      && s'.tasks.Keys == s.tasks.Keys
      && (id in s'.tasks ==> !HoldsBroker(s'.tasks[id]))
      && (forall other :: other in s.tasks && other != id ==> s'.tasks[other] == s.tasks[other])
  {
    MoveEffect(s, now, id, Failed, System, FailedBody(id, "deadline exceeded"));
  }

  lemma SweepOneKeepsInv(d: Daemon, now: int)
    requires Inv(d) && d.db.clock <= now && d.sweeper.Sweeping? && d.sweeper.todo != []
    ensures Inv(At(HouseAfter(d, now, SweepOne), now))
  {
    var id, todo := d.sweeper.todo[0], d.sweeper.todo;
    MoveKeepsInv(d, now, id, Failed, System, FailedBody(id, "deadline exceeded"));
    ExpireSettles(d.db, now, id);
    var d1 := At(d.(db := Expire(d.db, now, id).0), now);
    assert forall other :: other in todo ==> other == id || other in todo[1..];
    SweptOneSound(d1, d1.(sweeper := d.sweeper.(todo := todo[1..])), id);
  }

  lemma SweptOneSound(d: Daemon, d': Daemon, id: TaskId)
    requires SweepSound(d) && d.sweeper.Sweeping? && d.sweeper.todo != [] && id == d.sweeper.todo[0]
    requires d' == d.(sweeper := d.sweeper.(todo := d.sweeper.todo[1..]))
    requires id in d.db.tasks ==> !HoldsBroker(d.db.tasks[id])
    ensures SweepSound(d')
  {
    assert forall other :: other in d.sweeper.todo ==> other == id || other in d.sweeper.todo[1..];
  }

  // ---------------------------------------------------------------- every run

  lemma InitInv(d: Daemon)
    requires Init(d)
    ensures Inv(d)
  {
  }

  lemma MailOpKeepsInv(d: Daemon, now: int, op: MailOp)
    requires Inv(d) && d.db.clock <= now
    ensures Inv(At(d.(db := d.db.(mail := MailAfter(d.db, now, op))), now))
  {
    var s := d.db;
    if op.SendMail? && Send(s, now, op.from, op.toScope, op.to, op.text, op.replyTo).Some? {
      var message := Message(op.toScope, op.from.agent, Mail.Stamped(op.from, op.toScope), op.to,
        Text(op.text), now, op.replyTo, None);
      var targets := if op.to.Some? then {op.to.value} else LiveAgents(s, now, op.toScope, op.from.agent);
      SendKeepsInv(d, now, message, targets);
    } else {
      MailKeepsInv(d, MailAfter(s, now, op), now);
    }
  }

  lemma TaskOpKeepsInv(d: Daemon, now: int, op: TaskOp)
    requires Inv(d) && d.db.clock <= now && TaskEnabled(d.db, now, op)
    ensures Inv(At(d.(db := TasksAfter(d.db, now, op)), now))
  {
    match op
    case AssignTask(req, id, top) => AssignKeepsInv(d, now, req, id, top);
    case ReportTask(a, target, body) =>
      ClockKeepsInv(d, now);
      MoveKeepsInv(d, now, body.task, Claims(body).value, a, body);
    case CancelTask(id, a) => MoveKeepsInv(d, now, id, Cancelled, a, CancelBody(id));
    case ProgressTask(id, a, turns, tool) => ProgressKeepsInv(d, now, id, a, turns, tool);
  }

  lemma HouseOpKeepsInv(d: Daemon, now: int, op: HouseOp)
    requires Inv(d) && d.db.clock <= now && HouseEnabled(d, now, op)
    ensures Inv(At(HouseAfter(d, now, op), now))
  {
    match op
    case SweepOne => SweepOneKeepsInv(d, now);
    case MailPurge =>
      PurgeMailKeepsOwed(d);
      MailKeepsInv(d, PurgeMail(d.db, d.sweeper.cutoff).mail, now);
    case DeliveryPurge => MailKeepsInv(d, PurgeDeliveries(d.db).mail, now);
    case AgentPurge => PurgeAgentsKeepsInv(d, now);
    case TaskPurge => PurgeTasksKeepsInv(d, now);
    case _ => ClockKeepsInv(d, now);
  }

  lemma StepKeepsInv(d: Daemon, now: int, op: Op, d': Daemon)
    requires Inv(d) && Takes(d, now, op, d')
    ensures Inv(d')
  {
    match op
    case Rows(r) =>
      RowOpsEvolve(d.db, now, r);
      RowsKeepInv(d, RowsAfter(d.db, now, r), now);
    case Mails(m) => MailOpKeepsInv(d, now, m);
    case Tasks(t) => TaskOpKeepsInv(d, now, t);
    case House(h) => HouseOpKeepsInv(d, now, h);
  }

  lemma NextKeepsInv(d: Daemon, d': Daemon)
    requires Inv(d) && Next(d, d')
    ensures Inv(d')
  {
    var now, op :| Takes(d, now, op, d');
    StepKeepsInv(d, now, op, d');
  }

  lemma {:induction false} RunKeepsInv(run: seq<Daemon>, i: nat)
    requires IsRun(run) && i < |run|
    ensures Inv(run[i])
  {
    if i == 0 {
      InitInv(run[0]);
    } else {
      RunKeepsInv(run, i - 1);
      assert StepAt(run, i - 1);
      NextKeepsInv(run[i - 1], run[i]);
    }
  }
}
