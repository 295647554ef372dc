/** Exactly when each request to the ledger is granted, told by rows and states alone, and what a grant changes. */
module LedgerAnswers {
  import opened Wire
  import opened Ledger
  import opened LedgerRuns
  import opened LedgerInvariant
  import opened LedgerTheorems
  import opened LedgerRights
  import Mail

  // ---------------------------------------------------------------- moves

  /** What a granted move of a task changes besides the mail: its state, and when it last moved. */
  predicate MovedTo(s: Store, now: int, id: TaskId, to: TaskState, s': Store)
    requires id in s.tasks
  {
    s' == s.(tasks := s.tasks[id := s.tasks[id].(state := to, updatedAt := now)], mail := s'.mail)
  }

  /** Three answers: the move is made, it was made before and nothing changes, or it is refused and nothing changes. */
  predicate Answers(s: Store, now: int, id: TaskId, to: TaskState, made: bool, again: bool, s': Store, reply: Reply)
    requires id in s.tasks
  {
    && (reply == Ok(true) <==> made) && (reply == Ok(false) <==> again)
    && (made ==> MovedTo(s, now, id, to, s')) && (!made ==> s' == s)
  }

  /** A requester's cancel is made while its task is queued or accepted, and repeated at will afterwards. */
  lemma CancelAnswered(s: Store, now: int, id: TaskId, a: Actor)
    requires StoreInv(s) && id in s.tasks && IsItsRequester(s, s.tasks[id], a)
    ensures var t, (s', reply) := s.tasks[id], Cancel(s, now, id, a);
      Answers(s, now, id, Cancelled, (t.state == Queued || t.state == Accepted) && t.requester in s.agents,
              t.state == Cancelled, s', reply)
  {
    PartiesAreKnown(s, id, a);
    MoveEffect(s, now, id, Cancelled, a, CancelBody(id));
    if HoldsBroker(s.tasks[id]) { assert LauncherPresent(s, s.tasks[id]); }
  }

  /**
   * A broker's accept is made while its task is queued, and repeated while it stays accepted. A broker whose
   * row stands where the child's would is always refused.
   */
  lemma AcceptAnswered(s: Store, now: int, a: Actor, target: Address, body: Body)
    requires body.AcceptedBody? && body.task in s.tasks && target == s.tasks[body.task].requester
    requires IsItsBroker(s, s.tasks[body.task], a)
    ensures var t, (s', reply) := s.tasks[body.task], Report(s, now, a, target, body);
      var known := t.launcher != ChildRow(body.task, t);
      Answers(s, now, body.task, Accepted, known && t.state == Queued && t.requester in s.agents,
              known && t.state == Accepted, s', reply)
  {
    PartiesAreKnown(s, body.task, a);
    MoveEffect(s, now, body.task, Accepted, a, body);
    assert Address(a.scope, a.session.value) == s.tasks[body.task].launcher;
  }

  /** The state a child's terminal report asks for. */
  function Outcome(body: Body): TaskState {
    if body.ResultBody? then Done else Failed
  }

  /** A child's result is made of an accepted task, its failure also of a queued one; either is repeated at will. */
  lemma ChildAnswered(s: Store, now: int, a: Actor, target: Address, body: Body)
    requires (body.ResultBody? || body.FailedBody?) && body.task in s.tasks
    requires s.tasks[body.task].state != Cancelled
    requires target == s.tasks[body.task].requester && IsItsChild(s, body.task, s.tasks[body.task], a)
    ensures var t, (s', reply) := s.tasks[body.task], Report(s, now, a, target, body);
      Answers(s, now, body.task, Outcome(body),
              (t.state == Accepted || (t.state == Queued && body.FailedBody?)) && t.requester in s.agents,
              t.state == Outcome(body), s', reply)
  {
    PartiesAreKnown(s, body.task, a);
    MoveEffect(s, now, body.task, Outcome(body), a, body);
    assert Address(a.scope, a.session.value) == ChildRow(body.task, s.tasks[body.task]);
  }

  /** On a cancelled task either terminal of the child is the cancel's acknowledgement, and all it changes is that. */
  lemma ChildAcknowledges(s: Store, now: int, a: Actor, target: Address, body: Body)
    requires (body.ResultBody? || body.FailedBody?) && body.task in s.tasks
    requires s.tasks[body.task].state == Cancelled
    requires target == s.tasks[body.task].requester && IsItsChild(s, body.task, s.tasks[body.task], a)
    ensures Report(s, now, a, target, body) ==
      (s.(tasks := s.tasks[body.task := s.tasks[body.task].(cancelAcked := true)]), Ok(false))
  {
    PartiesAreKnown(s, body.task, a);
  }

  /** The sweep's failure leaves under the child's row if it is there, else under the broker's, for the requester. */
  lemma ExpirySays(s: Store, now: int, id: TaskId)
    requires StoreInv(s) && id in s.tasks && (s.tasks[id].state == Queued || s.tasks[id].state == Accepted)
    ensures var t, (s', reply), n := s.tasks[id], Expire(s, now, id), |s.mail.log|;
      && reply == Ok(true) && MovedTo(s, now, id, Failed, s')
      && (t.requester in s.agents ==>
            && |s'.mail.log| == n + 1
            && Mail.Unread(s'.mail, t.requester.scope, t.requester.agent, n)
            && var m, sender := s'.mail.log[n], if ChildRow(id, t) in s.agents then ChildRow(id, t) else t.launcher;
            && m.body == FailedBody(id, "deadline exceeded") && m.task == Some(id) && m.createdAt == now
            && m.from == sender.agent && m.replyTo == Some(sender))
      && (t.requester !in s.agents ==> s'.mail == s.mail)
  {
    MoveEffect(s, now, id, Failed, System, FailedBody(id, "deadline exceeded"));
    assert LauncherPresent(s, s.tasks[id]);
  }

  /** A task on the sweep's list was past its deadline at the sweep's cutoff. */
  ghost predicate ListedLate(d: Daemon, id: TaskId) {
    d.sweeper.Sweeping? && id in d.sweeper.todo ==>
      && MailOf(d.db.mail.log, id) != [] && d.sweeper.cutoff <= d.db.clock
      && (id in d.db.tasks ==> d.db.tasks[id].createdAt + d.db.tasks[id].deadline < d.sweeper.cutoff)
  }

  lemma StepListedLate(d: Daemon, now: int, op: Op, d': Daemon, id: TaskId)
    requires Inv(d) && Takes(d, now, op, d') && ListedLate(d, id)
    ensures ListedLate(d', id)
  {
    if d'.sweeper.Sweeping? && id in d'.sweeper.todo {
      if op.House? && op.house.SweepStart? {
        assert Overdue(d.db, now, id);
      } else {
        assert d.sweeper.Sweeping? && id in d.sweeper.todo;
        assert Next(d, d');
        StandingFalls(d, d', id);
        if id in d.db.tasks { LifeOnlyFalls(d, d', id); }
      }
    }
  }

  /** The sweep never fails a task before its deadline: whatever it has listed was late when it began. */
  lemma {:induction false} SweepSparesTheTimely(run: seq<Daemon>, i: nat, id: TaskId)
    requires IsRun(run) && i < |run|
    ensures ListedLate(run[i], id)
  {
    if i > 0 {
      SweepSparesTheTimely(run, i - 1, id);
      RunKeepsInv(run, i - 1);
      assert StepAt(run, i - 1);
      var now, op :| Takes(run[i - 1], now, op, run[i]);
      StepListedLate(run[i - 1], now, op, run[i], id);
    }
  }

  // ---------------------------------------------------------------- progress

  /** The turns a sample brings a task to: never back, never beyond the bound. */
  function TurnsAt(p: Progress, turns: int): int {
    if turns > 100000 || p.turns > 100000 then 100000 else if turns > p.turns then turns else p.turns
  }

  /** The task's child, or its broker unless its row stands where the child's would. */
  predicate MayReport(s: Store, id: TaskId, t: Task, a: Actor) {
    IsItsChild(s, id, t, a) || (IsItsBroker(s, t, a) && t.launcher != ChildRow(id, t))
  }

  /** Two minutes and a turn since the last copy, or since the first sample. */
  predicate CopyDue(p: Progress, turns: int, now: int) {
    p.mailedAt != 0 && now - p.mailedAt >= 120 && TurnsAt(p, turns) > p.mailedTurns
  }

  /**
   * A sample from the task's own child or broker, and from nobody else, is taken while the task is queued or
   * accepted, unless a copy is due and its requester is gone; and a copy is mailed exactly when one is due.
   */
  lemma ProgressAnswered(s: Store, now: int, id: TaskId, a: Actor, turns: int, tool: string)
    requires id in s.tasks && a.Caller?
    ensures var t, (s', reply) := s.tasks[id], RecordProgress(s, now, id, a, turns, tool);
      var live := MayReport(s, id, t, a) && (t.state == Queued || t.state == Accepted);
      var due := CopyDue(t.progress, turns, now);
      && (reply == Ok(true) <==> live && due && t.requester in s.agents)
      && (reply == Ok(false) <==> live && !due)
      && (reply.Refused? ==> s' == s)
      && (reply.Ok? ==>
            && id in s'.tasks && s'.tasks[id].heartbeatAt == now && s'.tasks[id].state == t.state
            && s'.tasks[id].progress.turns == TurnsAt(t.progress, turns))
      && (reply == Ok(false) ==> s'.mail == s.mail)
  {
    PartiesAreKnown(s, id, a);
    var t := s.tasks[id];
    if MayReport(s, id, t, a) {
      assert Address(a.scope, a.session.value) == if IsItsChild(s, id, t, a) then ChildRow(id, t) else t.launcher;
    }
  }

  /** The copy says which turn, which tool and how long after the assignment, under the row the caller proved. */
  lemma CopySays(s: Store, now: int, id: TaskId, a: Actor, turns: int, tool: string)
    requires id in s.tasks && a.Caller? && RecordProgress(s, now, id, a, turns, tool).1 == Ok(true)
    ensures var t, s', n := s.tasks[id], RecordProgress(s, now, id, a, turns, tool).0, |s.mail.log|;
      && |s'.mail.log| == n + 1 && id in s'.tasks
      && Mail.Unread(s'.mail, t.requester.scope, t.requester.agent, n)
      && var m, p := s'.mail.log[n], s'.tasks[id].progress;
      && m.body == ProgressBody(id, p.turns, p.tool, now - t.createdAt) && m.task == Some(id)
      && m.replyTo == Some(if IsItsChild(s, id, t, a) then ChildRow(id, t) else t.launcher)
      && p.mailedAt == now && p.mailedTurns == p.turns == TurnsAt(t.progress, turns)
  {
    PartiesAreKnown(s, id, a);
    ProgressAnswered(s, now, id, a, turns, tool);
    var t := s.tasks[id];
    assert Address(a.scope, a.session.value) == if IsItsChild(s, id, t, a) then ChildRow(id, t) else t.launcher;
  }

  // ---------------------------------------------------------------- identities

  /** A launcher registers under a session nobody has, or again with its own secret; the row then says so. */
  lemma LauncherTaken(agents: Agents, now: int, row: Address, caps: set<Cap>, secret: Secret)
    requires RelayUnique(agents)
    ensures var (agents', err) := RegisterRelay(agents, now, row, caps, secret);
      && (err.None? <==>
            || (forall r :: r in agents ==> r.agent != row.agent)
            || (row in agents && agents[row].origin == Relay && agents[row].secret == Some(secret)
                && (agents[row].kind == NoKind || agents[row].kind == Launcher)))
      && (err.Some? ==> agents' == agents)
      && (err.None? ==>
            && agents'.Keys == agents.Keys + {row}
            && (forall r :: r in agents && r != row ==> agents'[r] == agents[r])
            && var a := agents'[row];
            && a.kind == Launcher && a.origin == Relay && a.status == Active && a.lastSeen == now
            && a.caps == caps && a.secret == Some(secret))
  {
    assert Address(row.scope, row.agent) == row;
    if row in agents && agents[row].origin == Relay {
      assert IsRelayRow(agents, row);
      assert FirstRow(agents, row.agent) == Some(row);
    }
  }

  /** A child is minted exactly for a task that holds its broker, on that broker's secret, if nobody wears its id. */
  lemma MintGranted(s: Store, now: int, id: TaskId, launcher: Session, secret: Secret, minted: Secret)
    ensures ReissueRefused(s, id, launcher, secret).None? <==>
      && id in s.tasks
      && var t := s.tasks[id];
      && t.launcher.agent == launcher
      && (t.state == Queued || t.state == Accepted || (t.state == Cancelled && !t.cancelAcked))
      && t.launcher in s.agents && s.agents[t.launcher].origin == Relay && s.agents[t.launcher].kind == Launcher
      && s.agents[t.launcher].secret == Some(secret)
      && (forall row :: row in s.agents && row.agent == Eyes(id) ==>
            row.scope == t.requester.scope && s.agents[row].origin == Relay && s.agents[row].kind == EyesChild)
    ensures var agents := Reissue(s, now, id, launcher, secret, minted);
      if ReissueRefused(s, id, launcher, secret).Some? then agents == s.agents
      else
        var child := Address(s.tasks[id].requester.scope, Eyes(id));
        && agents.Keys == s.agents.Keys + {child}
        && (forall row :: row in s.agents && row != child ==> agents[row] == s.agents[row])
        && agents[child].kind == EyesChild && agents[child].origin == Relay && agents[child].secret == Some(minted)
        && agents[child].status == Active && agents[child].lastSeen == now
  {
  }

  // ---------------------------------------------------------------- presence

  /**
   * A row heard of at `seen` that has not left counts as live for fifteen minutes, as a broker to pick for
   * thirty seconds, and stays for two hours; a row that has left stays gone until it registers again.
   */
  lemma PresenceLasts(s: Store, seen: int, now: int, row: Address)
    requires row in s.agents
    ensures var s' := s.(agents := Touch(s.agents, seen, row));
      var a, a' := s.agents[row], s'.agents[row];
      && (a.status == Gone ==> a' == a && !Live(a', now))
      && (a.status != Gone ==>
            && a'.status == Active && (Live(a', now) <==> now <= seen + 900)
            && (row in PurgeAgents(s'.agents, now) <==> now <= seen + 7200))
      && (a.status != Gone && a.kind == Launcher && a.origin == Relay && row.scope.Host? ==>
            (Candidate(s', now, row) <==> now <= seen + 30))
      && a' == a.(status := a'.status, lastSeen := a'.lastSeen)
      && forall r :: r in s.agents && r != row ==> r in s'.agents && s'.agents[r] == s.agents[r]
  {
  }

  // ---------------------------------------------------------------- ordinary mail

  /** Every delivery is of a message that was written. */
  predicate ReceiptsKnown(s: Store) {
    forall k :: k in s.mail.receipts ==> k.0 < |s.mail.log|
  }

  lemma StepReceiptsKnown(d: Daemon, now: int, op: Op, d': Daemon)
    requires ReceiptsKnown(d.db) && Takes(d, now, op, d')
    ensures ReceiptsKnown(d'.db)
  {
    match op
    case Tasks(t) => var w := TaskOpWrites(d.db, now, t);
    case House(h) => if h.SweepOne? { var w := SweepWrites(d.db, now, d.sweeper.todo[0]); }
    case _ =>
  }

  lemma {:induction false} RunReceiptsKnown(run: seq<Daemon>, i: nat)
    requires IsRun(run) && i < |run|
    ensures ReceiptsKnown(run[i].db)
  {
    if i > 0 {
      RunReceiptsKnown(run, i - 1);
      assert StepAt(run, i - 1);
      var now, op :| Takes(run[i - 1], now, op, run[i]);
      StepReceiptsKnown(run[i - 1], now, op, run[i]);
    }
  }

  /** A send commits when its sender and any named recipient have rows, and reaches exactly those it is for. */
  lemma SendReaches(s: Store, now: int, from: Address, toScope: Scope, to: Option<Session>, text: string,
                    replyTo: Option<Address>, agent: Session)
    requires ReceiptsKnown(s)
    ensures var sent, n := Send(s, now, from, toScope, to, text, replyTo), |s.mail.log|;
      && (sent.Some? <==> from in s.agents && (to.Some? ==> Address(toScope, to.value) in s.agents))
      && (sent.Some? ==>
            var s' := sent.value;
            && s' == s.(mail := s'.mail) && |s'.mail.log| == n + 1 && s.mail.log <= s'.mail.log
            && s'.mail.log[n] == Message(toScope, from.agent, if from.scope == toScope then None else Some(from.scope),
                                         to, Text(text), now, replyTo, None)
            && (Mail.Unnoticed(s'.mail, toScope, agent, n) <==>
                  if to.Some? then agent == to.value
                  else agent != from.agent && Address(toScope, agent) in s.agents
                       && s.agents[Address(toScope, agent)].status != Gone
                       && now - s.agents[Address(toScope, agent)].lastSeen <= 900)
            && (Mail.Delivered(s'.mail, toScope, agent, n) <==> Mail.Unnoticed(s'.mail, toScope, agent, n)))
  {
    assert forall row: Address :: Address(row.scope, row.agent) == row;
  }

  // ---------------------------------------------------------------- purges

  /** What the housekeeper deletes, and nothing else: by age alone for rows and tasks, by age and reading for mail. */
  lemma PurgesExactly(s: Store, now: int, row: Address, id: TaskId, m: nat, agent: Session)
    ensures row in PurgeAgents(s.agents, now) <==> row in s.agents && now - s.agents[row].lastSeen <= 7200
    ensures row in PurgeAgents(s.agents, now) ==> PurgeAgents(s.agents, now)[row] == s.agents[row]
    ensures id in PurgeTasks(s, now).tasks <==> id in s.tasks && now - s.tasks[id].updatedAt <= 86400
    ensures id in PurgeTasks(s, now).tasks ==> PurgeTasks(s, now).tasks[id] == s.tasks[id]
    ensures m < |s.mail.log| ==>
      var age := now - s.mail.log[m].createdAt;
      (m in PurgeMail(s, now).mail.kept <==>
        && m in s.mail.kept && age <= 2592000
        && (age <= 604800 || (exists k :: k in s.mail.receipts && k.0 == m && !s.mail.receipts[k].read)
            || forall k :: k in s.mail.receipts ==> k.0 != m))
    ensures var receipts := PurgeDeliveries(s).mail.receipts;
      && ((m, agent) in receipts <==>
            (m, agent) in s.mail.receipts && m in s.mail.kept && exists r :: r in s.agents && r.agent == agent)
      && ((m, agent) in receipts ==> receipts[(m, agent)] == s.mail.receipts[(m, agent)])
  {
    if r :| r in s.agents && r.agent == agent {
      assert agent in (set q | q in s.agents :: q.agent);
    }
  }

  // ---------------------------------------------------------------- the housekeeper can finish

  function Last(run: seq<Daemon>): Daemon
    requires |run| > 0
  {
    run[|run| - 1]
  }

  lemma Extended(run: seq<Daemon>, now: int, op: Op) returns (run': seq<Daemon>)
    requires IsRun(run) && Last(run).db.clock <= now && Enabled(Last(run), now, op)
    ensures IsRun(run') && run' == run + [At(After(Last(run), now, op), now)]
  {
    run' := run + [At(After(Last(run), now, op), now)];
    forall i | 0 <= i < |run'| - 1 ensures StepAt(run', i) {
      if i < |run| - 1 { assert StepAt(run, i); }
      else { assert Takes(run'[i], now, op, run'[i + 1]); }
    }
  }

  lemma {:induction false} Listed(ids: set<TaskId>) returns (todo: seq<TaskId>)
    ensures forall id :: id in todo <==> id in ids
    decreases ids
  {
    todo := [];
    if ids != {} {
      var id :| id in ids;
      var rest := Listed(ids - {id});
      todo := [id] + rest;
    }
  }

  /** A sweep under way can come to its end. */
  lemma {:induction false} SweepCanEnd(run: seq<Daemon>, now: int) returns (run': seq<Daemon>)
    requires IsRun(run) && Last(run).sweeper.Sweeping? && Last(run).db.clock <= now
    ensures IsRun(run') && run <= run' && Last(run').sweeper == Swept(Last(run).sweeper.cutoff)
    ensures Last(run').db.clock == now
    decreases |Last(run).sweeper.todo|
  {
    if Last(run).sweeper.todo == [] {
      run' := Extended(run, now, House(SweepEnd));
    } else {
      var run1 := Extended(run, now, House(SweepOne));
      run' := SweepCanEnd(run1, now);
    }
  }

  /** Nothing in the ledger is past its time. */
  predicate InTime(s: Store, now: int) {
    && (forall row :: row in s.agents ==> now - s.agents[row].lastSeen <= 7200)
    && (forall id :: id in s.tasks ==> now - s.tasks[id].updatedAt <= 86400)
    && (forall id :: id in s.tasks && s.tasks[id].createdAt + s.tasks[id].deadline < now ==>
          match s.tasks[id].state
          case Queued => false
          case Accepted => false
          case Cancelled => s.tasks[id].cancelAcked
          case _ => true)
    && (forall m :: m in s.mail.kept && m < |s.mail.log| ==> now - s.mail.log[m].createdAt <= 2592000)
  }

  lemma PurgesCanEnd(run: seq<Daemon>, now: int) returns (run': seq<Daemon>)
    requires IsRun(run) && Last(run).sweeper == Swept(now) && Last(run).db.clock == now
    ensures IsRun(run') && run <= run' && Last(run').sweeper == Swept(now)
    ensures var s := Last(run).db;
      Last(run').db == PurgeTasks(PurgeDeliveries(PurgeMail(s, now).(agents := PurgeAgents(s.agents, now))), now)
  {
    var run1 := Extended(run, now, House(MailPurge));
    var run2 := Extended(run1, now, House(AgentPurge));
    var run3 := Extended(run2, now, House(DeliveryPurge));
    run' := Extended(run3, now, House(TaskPurge));
  }

  /** From any reachable state between two rounds of it, housekeeping can run its whole course. */
  lemma HousekeepingCanFinish(run: seq<Daemon>, now: int) returns (run': seq<Daemon>)
    requires IsRun(run) && Last(run).sweeper.Resting? && Last(run).db.clock <= now
    ensures IsRun(run') && run <= run' && Last(run').sweeper == Swept(now) && InTime(Last(run').db, now)
  {
    var s := Last(run).db;
    var todo := Listed(set id | id in s.tasks && Overdue(s, now, id));
    var run1 := Extended(run, now, House(SweepStart(todo)));
    var run2 := SweepCanEnd(run1, now);
    run' := PurgesCanEnd(run2, now);
    forall id | id in Last(run').db.tasks && Last(run').db.tasks[id].createdAt + Last(run').db.tasks[id].deadline < now
      ensures !HoldsBroker(Last(run').db.tasks[id])
    {
      SweepReleases(run', |run'| - 1, id);
    }
  }
}
