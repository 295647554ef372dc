/** The two sides agree on envelopes: what the ledger queues for a broker is what the broker accepts. */
module Envelopes {
  import opened Wire
  import opened Ledger
  import opened LedgerRuns
  import opened LedgerInvariant
  import opened LedgerTheorems
  import opened LaunchRules
  import opened Broker
  import J = Journal
  import Mail

  predicate ForBroker(m: Message) { m.body.LaunchBody? || m.body.CancelBody? }

  /** A launch or a cancel names the task's requester as its return address, stamped with the requester's scope. */
  predicate Enveloped(t: Task, m: Message) {
    && m.replyTo == Some(t.requester) && m.fromScope == Mail.Stamped(t.requester, t.launcher.scope)
    && (m.body.LaunchBody? ==> m.body.replyTo == t.requester)
  }

  predicate OfTask(s: Store, m: Message) { m.task.Some? && m.task.value in s.tasks }

  ghost predicate AllEnveloped(s: Store) {
    forall n | 0 <= n < |s.mail.log| && OfTask(s, s.mail.log[n]) && ForBroker(s.mail.log[n]) ::
      Enveloped(s.tasks[s.mail.log[n].task.value], s.mail.log[n])
  }

  /** One row rewritten for the same parties, and perhaps one message that is enveloped if it needs to be. */
  lemma WrittenEnveloped(s: Store, id: TaskId, t: Task, message: Option<Message>, targets: set<Session>)
    requires AllEnveloped(s) && id in s.tasks && t.requester == s.tasks[id].requester
    requires t.launcher == s.tasks[id].launcher
    requires message.Some? && ForBroker(message.value) ==> message.value.task == Some(id) && Enveloped(t, message.value)
    ensures AllEnveloped(Written(s, id, t, message, targets))
  {
    if message.Some? { PostedLog(s.mail, message.value, targets); }
  }

  lemma MoveEnveloped(s: Store, now: int, id: TaskId, to: TaskState, a: Actor, body: Body)
    requires AllEnveloped(s) && Speaks(body, id, to)
    ensures AllEnveloped(Move(s, now, id, to, a, body).0)
  {
    MoveEffect(s, now, id, to, a, body);
    match EffectOf(s, id, to, a, body)
    case Nothing =>
    case Acked => WrittenEnveloped(s, id, s.tasks[id].(cancelAcked := true), None, {});
    case Silent => WrittenEnveloped(s, id, s.tasks[id].(state := to, updatedAt := now), None, {});
    case Mailed(f, r, b) =>
      assert b.CancelBody? ==> f == s.tasks[id].requester && r == s.tasks[id].launcher;
      WrittenEnveloped(s, id, s.tasks[id].(state := to, updatedAt := now), Some(Posting(now, f, r, b, id)), {r.agent});
  }

  lemma AssignEnveloped(s: Store, now: int, req: Request, id: TaskId, top: Option<Address>)
    requires AllEnveloped(s) && Fresh(s, id) && IsTopRow(s, now, req.runtime, top)
    ensures AllEnveloped(Assign(s, now, req, id, top).0)
  {
    if Assign(s, now, req, id, top).1.None? {
      var t := AssignedTask(s, now, req, id, top);
      PostedLog(s.mail, LaunchPosting(now, id, t, req), {t.launcher.agent});
    }
  }

  lemma ProgressEnveloped(s: Store, now: int, id: TaskId, a: Actor, turns: int, tool: string)
    requires AllEnveloped(s)
    ensures AllEnveloped(RecordProgress(s, now, id, a, turns, tool).0)
  {
    if id in s.tasks && RecordProgress(s, now, id, a, turns, tool).0 != s {
      var next, message, targets := ProgressEffect(s, now, id, a, turns, tool);
      var s1 := s.(agents := Touch(s.agents, now, ChildRow(id, s.tasks[id])));
      WrittenEnveloped(s1, id, s.tasks[id].(progress := next, heartbeatAt := now), message, targets);
    }
  }

  lemma TaskOpEnveloped(s: Store, now: int, op: TaskOp)
    requires AllEnveloped(s) && TaskEnabled(s, now, op)
    ensures AllEnveloped(TasksAfter(s, now, op))
  {
    match op
    case AssignTask(req, id, top) => AssignEnveloped(s, now, req, id, top);
    case ReportTask(a, target, body) => MoveEnveloped(s, now, body.task, Claims(body).value, a, body);
    case CancelTask(id, a) => MoveEnveloped(s, now, id, Cancelled, a, CancelBody(id));
    case ProgressTask(id, a, turns, tool) => ProgressEnveloped(s, now, id, a, turns, tool);
  }

  lemma StepEnveloped(d: Daemon, now: int, op: Op, d': Daemon)
    requires AllEnveloped(d.db) && Takes(d, now, op, d')
    ensures AllEnveloped(d'.db)
  {
    match op
    case Tasks(t) => TaskOpEnveloped(d.db, now, t);
    case House(h) =>
      if h.SweepOne? {
        var due := d.sweeper.todo[0];
        MoveEnveloped(d.db, now, due, Failed, Actor.System, FailedBody(due, "deadline exceeded"));
      }
    case _ =>
  }

  lemma {:induction false} RunEnveloped(run: seq<Daemon>, i: nat)
    requires LedgerRuns.IsRun(run) && i < |run|
    ensures AllEnveloped(run[i].db)
  {
    if i > 0 {
      RunEnveloped(run, i - 1);
      assert LedgerRuns.StepAt(run, i - 1);
      var now, op :| Takes(run[i - 1], now, op, run[i]);
      StepEnveloped(run[i - 1], now, op, run[i]);
    }
  }

  // ---------------------------------------------------------------- what a broker understands

  /**
   * In every reachable state the envelope of an owed launch is good exactly when requester and broker do not share a
   * scope.
   */
  lemma LaunchEnvelopes(run: seq<Daemon>, i: nat, b: Session, id: TaskId, n: nat)
    requires LedgerRuns.IsRun(run) && i < |run| && PendingLaunch(run[i].db, b, id, n)
    ensures n < |run[i].db.mail.log| && id in run[i].db.tasks
    ensures GoodLaunch(run[i].db.mail.log[n]) <==>
      run[i].db.tasks[id].requester.scope != run[i].db.tasks[id].launcher.scope
  {
    var s := run[i].db;
    RunKeepsInv(run, i);
    RunEnveloped(run, i);
    LaunchesExact(s, b, id, n);
    assert Enveloped(s.tasks[id], s.mail.log[n]);
  }

  /** A scope that mail can name as its sender's, seen from a broker. */
  predicate Foreign(scope: Scope, broker: Scope) {
    scope != broker && scope != Workspace("")
  }

  /** And so is a cancel's; the return address it names is the one its launch named. */
  lemma CancelsAreUnderstood(run: seq<Daemon>, i: nat, b: Session, id: TaskId, n: nat, m: nat)
    requires LedgerRuns.IsRun(run) && i < |run| && PendingCancel(run[i].db, b, id, n)
    requires IsLaunchOf(run[i].db, id, m)
    ensures n < |run[i].db.mail.log| && id in run[i].db.tasks
    ensures GoodCancel(run[i].db.mail.log[n]) <==>
      Foreign(run[i].db.tasks[id].requester.scope, run[i].db.tasks[id].launcher.scope)
    ensures run[i].db.mail.log[n].replyTo == run[i].db.mail.log[m].replyTo
    ensures run[i].db.mail.log[n].fromScope == run[i].db.mail.log[m].fromScope
  {
    var s := run[i].db;
    RunKeepsInv(run, i);
    RunEnveloped(run, i);
    CancelsExact(s, b, id, n);
    assert Enveloped(s.tasks[id], s.mail.log[n]) && Enveloped(s.tasks[id], s.mail.log[m]);
  }

  /** The briefs a broker in scope `broker` will take, as their requester can tell before asking. */
  predicate Takeable(req: Request, broker: Scope) {
    && Foreign(req.requester.scope, broker)
    && (req.runtime == "" || ValidIdentifier(req.runtime))
    && ValidBrief(req.brief) && req.overhead + JsonLength(req.brief) <= MAX_MESSAGE_BODY
    && (req.deadlineS <= 0 || req.deadlineS >= MIN_TIMEOUT)
  }

  /** An assignment writes a launch that its broker accepts exactly when the brief was takeable. */
  lemma AssignIsUnderstood(s: Store, now: int, req: Request, id: TaskId, top: Option<Address>)
    requires IsTopRow(s, now, req.runtime, top) && Assign(s, now, req, id, top).1.None?
    ensures top.Some? && |s.mail.log| < |Assign(s, now, req, id, top).0.mail.log|
    ensures IsLaunchOf(Assign(s, now, req, id, top).0, id, |s.mail.log|)
    ensures AcceptedLaunch(Assign(s, now, req, id, top).0.mail.log[|s.mail.log|]) <==> Takeable(req, top.value.scope)
  {
    AssignEffect(s, now, req, id, top);
    PickIsFaithful(s, now, req.runtime, top);
    DefaultsAreIdentifiers();
    if req.runtime == "" { DefaultResolves(s.agents[top.value].caps); }
  }

  /**
   * So in every later state of any run: while the task is queued, the launch its broker is handed is
   * accepted exactly when the brief was takeable, whatever has happened since.
   */
  lemma LaunchesAreUnderstood(run: seq<Daemon>, i: nat, j: nat, now: int, req: Request, id: TaskId,
                              top: Option<Address>, b: Session, n: nat)
    requires LedgerRuns.IsRun(run) && i < j < |run|
    requires Takes(run[i], now, Tasks(AssignTask(req, id, top)), run[i + 1])
    requires Assign(run[i].db, now, req, id, top).1.None? && PendingLaunch(run[j].db, b, id, n)
    ensures top.Some? && n < |run[j].db.mail.log|
    ensures AcceptedLaunch(run[j].db.mail.log[n]) <==> Takeable(req, top.value.scope)
  {
    var first := |run[i].db.mail.log|;
    AssignIsUnderstood(run[i].db, now, req, id, top);
    RunLogGrows(run, i + 1, j);
    RunKeepsInv(run, j);
    LaunchesExact(run[j].db, b, id, n);
    SameLaunch(run[j].db.mail.log, id, first, n);
  }

  // ---------------------------------------------------------------- and what it then does

  /** The journal's form of a launch keeps all of what it says. */
  predicate Records(l: J.Launch, body: Body)
    requires body.LaunchBody?
  {
    && l.task == body.task && l.runtime == body.runtime && l.brief == body.brief
    && l.replyTo == Some(body.replyTo) && l.deadlineS == body.deadlineS
  }

  /**
   * Given the launch of a task it does not know, a broker that does not crash journals it if it accepts it, and else
   * drops it.
   */
  lemma LaunchIsTakenOrDropped(h: Host, h': Host)
    requires h.main.Handling? && h.main.batch != [] && h.main.batch[0].body.LaunchBody?
    requires h.main.batch[0].body.task !in h.journal && h.active != Some(h.main.batch[0].body.task)
    requires MainStep(h, h') && !Crashes(h, h')
    ensures var m := h.main.batch[0];
      if AcceptedLaunch(m)
      then m.body.task in h'.journal && m.body.task in h'.put && Records(h'.journal[m.body.task].launch, m.body)
           && (h.active.None? ==> h'.active == Some(m.body.task) && h'.journal[m.body.task].state == J.Received)
           && (h.active.Some? ==> h'.journal[m.body.task].terminal == Some(FailedBody(m.body.task, "eyes busy")))
      else h' == h.(main := Handling(h.main.batch[1..]))
  {
    if AcceptedLaunch(h.main.batch[0]) { assert LaunchesNew(h, h'); }
  }

  /** Given the very launch of a task that has ended, it sends the terminal from its journal once more. */
  lemma RepeatIsAnswered(h: Host, h': Host)
    requires h.main.Handling? && h.main.batch != [] && AcceptedLaunch(h.main.batch[0])
    requires var m := h.main.batch[0];
      && m.body.task in h.journal && h.journal[m.body.task].state == J.Terminal
      && Records(h.journal[m.body.task].launch, m.body)
    requires MainStep(h, h') && !Crashes(h, h')
    ensures exists k ::
      k !in h.workers && k in h'.workers &&
      h'.workers[k] == Supervising(h.journal[h.main.batch[0].body.task], Sealing, false)
  {
    assert LaunchesKnown(h, h');
  }

  /** Given a good cancel of a task it does not know, it fails that task, durably and to the cancel's return address. */
  lemma EarlyCancelIsTaken(h: Host, h': Host)
    requires h.main.Handling? && h.main.batch != [] && GoodCancel(h.main.batch[0])
    requires h.main.batch[0].body.task !in h.journal
    requires MainStep(h, h') && !Crashes(h, h')
    ensures h'.main.Settling? && h'.main.phase == Sealing
    ensures var m, r := h.main.batch[0], h'.main.record;
      && r.launch.task == m.body.task && r.launch.replyTo == m.replyTo && r.child.None?
      && r.state == J.Terminal && r.terminal == Some(FailedBody(m.body.task, "cancelled"))
  {
    assert CancelsUnknown(h, h');
  }
}
