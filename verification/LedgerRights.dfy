/** Who may do what to a task, what each answer means, and what each credential opens. */
module LedgerRights {
  import opened Wire
  import opened Ledger
  import opened LedgerRuns
  import opened LedgerInvariant
  import opened LedgerTheorems
  import Mail

  // ---------------------------------------------------------------- entitlement

  /** The caller came over the relay and proved the task's own broker row. */
  predicate IsItsBroker(s: Store, t: Task, a: Actor) {
    && a.Caller? && a.origin == Relay && a.session == Some(t.launcher.agent) && a.scope == t.launcher.scope
    && RelayKind(s.agents, t.launcher, Launcher)
  }

  /** The caller came over the relay and proved the child minted for the task, in the requester's workspace. */
  predicate IsItsChild(s: Store, id: TaskId, t: Task, a: Actor) {
    && a.Caller? && a.origin == Relay && a.session == Some(Eyes(id)) && a.scope == t.requester.scope
    && RelayKind(s.agents, ChildRow(id, t), EyesChild)
  }

  /** The caller's own row is bound to the requester as its child agent, and both are there. */
  predicate IsBoundChild(s: Store, t: Task, a: Actor)
    requires a.Caller?
  {
    && Address(t.requester.scope, a.ref.agent) in s.agents && t.requester in s.agents
    && s.agents[Address(t.requester.scope, a.ref.agent)].parent == Some(t.requester.agent)
  }

  /** The caller is the requester or a subagent bound to it, off the local socket and in its workspace. */
  predicate IsItsRequester(s: Store, t: Task, a: Actor) {
    && a.Caller? && a.origin == Local && a.ref.scope == t.requester.scope
    && (a.ref.agent == t.requester.agent || IsBoundChild(s, t, a))
  }

  /** The ledger finds each of the three parties to be what it is. */
  lemma PartiesAreKnown(s: Store, id: TaskId, a: Actor)
    requires id in s.tasks && a.Caller?
    ensures var t, role := s.tasks[id], RoleOf(s, id, s.tasks[id], a);
      && (role == RoleChild <==> IsItsChild(s, id, t, a))
      && (role == RoleLauncher <==> IsItsBroker(s, t, a) && t.launcher != ChildRow(id, t))
      && (role == RoleRequester <==> IsItsRequester(s, t, a))
      && role != RoleSystem
  {
    var t := s.tasks[id];
    assert Address(t.requester.scope, t.requester.agent) == t.requester;
    assert Address(t.launcher.scope, t.launcher.agent) == t.launcher;
  }

  /** A move that commits was made by the party its target state belongs to, from a state that party may leave. */
  lemma MovesAreEntitled(s: Store, now: int, id: TaskId, to: TaskState, a: Actor, body: Body)
    requires a.Caller? && Move(s, now, id, to, a, body).1 == Ok(true)
    ensures id in s.tasks
    ensures var t := s.tasks[id];
      match to
      case Queued => false
      case Accepted => IsItsBroker(s, t, a) && t.state == Queued
      case Done => IsItsChild(s, id, t, a) && t.state == Accepted
      case Failed =>
        || (IsItsChild(s, id, t, a) && (t.state == Queued || t.state == Accepted))
        || (IsItsBroker(s, t, a) && t.state == Queued)
      case Cancelled => IsItsRequester(s, t, a) && (t.state == Queued || t.state == Accepted)
  {
    MoveEffect(s, now, id, to, a, body);
  }

  /** Nobody but those three parties and the sweep changes anything: any other caller is refused and leaves no trace. */
  lemma StrangersAreRefused(s: Store, now: int, id: TaskId, to: TaskState, a: Actor, body: Body, turns: int,
                            tool: string)
    requires a.Caller? && id in s.tasks
    requires !IsItsBroker(s, s.tasks[id], a) && !IsItsChild(s, id, s.tasks[id], a) && !IsItsRequester(s, s.tasks[id], a)
    ensures Move(s, now, id, to, a, body).0 == s && Move(s, now, id, to, a, body).1.Refused?
    ensures RecordProgress(s, now, id, a, turns, tool) == (s, Refused(NotYourTask))
  {
    assert RoleOf(s, id, s.tasks[id], a) == NoRole;
  }

  // ---------------------------------------------------------------- what the mail says

  /**
   * The mail of a committed move names its sender, its return address and the task, and carries the caller's own
   * words.
   */
  lemma MailSaysWhatMoved(s: Store, now: int, id: TaskId, to: TaskState, a: Actor, body: Body)
    requires StoreInv(s) && a.Caller? && Speaks(body, id, to) && Move(s, now, id, to, a, body).1 == Ok(true)
    ensures var s', n := Move(s, now, id, to, a, body).0, |s.mail.log|;
      && n < |s'.mail.log|
      && var t, m := s.tasks[id], s'.mail.log[n];
      && m.task == Some(id) && m.createdAt == now
      && m.body == (if to == Cancelled then CancelBody(id) else body)
      && (var sender := if to == Cancelled then t.requester
                        else if IsItsChild(s, id, t, a) then ChildRow(id, t) else t.launcher;
          && m.from == sender.agent && m.replyTo == Some(sender)
          && m.fromScope == Mail.Stamped(sender, m.scope))
  {
    MoveEffect(s, now, id, to, a, body);
    EffectSound(s, id, to, a, body);
    MovesAreEntitled(s, now, id, to, a, body);
  }

  // ---------------------------------------------------------------- what an answer to a report means

  /**
   * The broker's own failure is answered well exactly when it repeats the outcome, gives up a task it
   * never accepted whose requester is still there, or answers a cancel of a task that got no child.
   * A broker whose row stands where the child's would is taken for neither, and always refused.
   */
  lemma LauncherFailureAnswered(s: Store, now: int, a: Actor, target: Address, body: Body)
    requires body.FailedBody? && body.task in s.tasks && target == s.tasks[body.task].requester
    requires IsItsBroker(s, s.tasks[body.task], a)
    ensures var t := s.tasks[body.task];
      Report(s, now, a, target, body).1.Ok? <==>
        t.launcher != ChildRow(body.task, t) &&
        (|| t.state == Failed
         || (t.state == Queued && t.requester in s.agents)
         || (t.state == Cancelled && !RelayKind(s.agents, ChildRow(body.task, t), EyesChild)))
  {
    var t := s.tasks[body.task];
    MoveEffect(s, now, body.task, Failed, a, body);
    assert t.launcher == Address(t.launcher.scope, t.launcher.agent);
  }

  /**
   * A well-answered report on a cancelled task is the cancel's acknowledgement: it writes no mail and frees the
   * broker.
   */
  lemma CancelIsAnswered(s: Store, now: int, a: Actor, target: Address, body: Body, m: nat)
    requires StoreInv(s) && (body.ResultBody? || body.FailedBody?) && a.Caller?
    requires body.task in s.tasks && s.tasks[body.task].state == Cancelled && Report(s, now, a, target, body).1.Ok?
    ensures var s', t := Report(s, now, a, target, body).0, s.tasks[body.task];
      && Report(s, now, a, target, body).1 == Ok(false)
      && s' == s.(tasks := s.tasks[body.task := t.(cancelAcked := true)])
      && !HoldsBroker(s'.tasks[body.task])
      && !PendingCancel(s', t.launcher.agent, body.task, m)
  {
    MoveEffect(s, now, body.task, Claims(body).value, a, body);
  }

  // ---------------------------------------------------------------- assignment

  /**
   * An idle broker that could run the brief: a launcher that came over the relay into a host scope, was
   * heard of in the last thirty seconds and has not left, drives Chrome with the provider asked for, or
   * with some known one if none is, and has no task that is queued, accepted or cancelled without answer.
   */
  predicate Available(s: Store, now: int, runtime: string, row: Address) {
    && row in s.agents && row.scope.Host?
    && var a := s.agents[row];
    && a.kind == Launcher && a.origin == Relay && a.status != Gone && now - a.lastSeen <= 30
    && Chrome in a.caps
    && (if runtime != "" then Provider(runtime) in a.caps
        else Provider("claude") in a.caps || Provider("codex") in a.caps || Provider("grok") in a.caps)
    && forall id :: id in s.tasks && s.tasks[id].launcher.agent == row.agent ==>
         match s.tasks[id].state
         case Queued => false
         case Accepted => false
         case Cancelled => s.tasks[id].cancelAcked
         case _ => true
  }

  lemma AvailableIs(s: Store, now: int, runtime: string, row: Address)
    ensures Available(s, now, runtime, row) <==>
      Candidate(s, now, row) && Matches(s.agents[row].caps, runtime) && !Busy(s, row.agent)
  {
    if Candidate(s, now, row) {
      var caps := s.agents[row].caps;
      assert PROVIDER_ORDER[0] == "claude" && PROVIDER_ORDER[1] == "codex" && PROVIDER_ORDER[2] == "grok";
      assert "claude" in PROVIDER_ORDER && "codex" in PROVIDER_ORDER && "grok" in PROVIDER_ORDER;
    }
  }

  /** A name the ledger records: at most thirty-two of a few characters, or nothing. */
  predicate IsRuntimeName(r: string) {
    && |r| <= 32
    && forall i :: 0 <= i < |r| ==> 'a' <= r[i] <= 'z' || '0' <= r[i] <= '9' || r[i] in {'.', '_', '-'}
  }

  lemma RuntimeNamesAre(r: string)
    ensures ValidRuntime(r) <==> IsRuntimeName(r)
  {
    assert forall i :: 0 <= i < |r| ==> r[i] in r;
  }

  /**
   * A brief is taken exactly when its requester is a local row, its runtime is a name, and some broker is available.
   */
  lemma AssignTakesWhatItCan(s: Store, now: int, req: Request, id: TaskId, top: Option<Address>)
    requires IsTopRow(s, now, req.runtime, top)
    ensures Assign(s, now, req, id, top).1.None? <==>
      && req.requester in s.agents && s.agents[req.requester].origin == Local && IsRuntimeName(req.runtime)
      && exists row :: Available(s, now, req.runtime, row)
    ensures Assign(s, now, req, id, top).1.Some? ==> Assign(s, now, req, id, top).0 == s
  {
    PickIsFaithful(s, now, req.runtime, top);
    RuntimeNamesAre(req.runtime);
    if top.Some? && PickLauncher(s, req.runtime, top).Picked? {
      AvailableIs(s, now, req.runtime, top.value);
      if req.runtime == "" { DefaultResolves(s.agents[top.value].caps); }
    }
    if row :| Available(s, now, req.runtime, row) {
      AvailableIs(s, now, req.runtime, row);
      assert PickLauncher(s, req.runtime, top).Picked?;
    }
  }

  /**
   * What a taken brief records and mails: a runtime its broker advertises, a bounded deadline, and a launch that says
   * the same.
   */
  lemma AssignRecords(s: Store, now: int, req: Request, id: TaskId, top: Option<Address>)
    requires IsTopRow(s, now, req.runtime, top) && Assign(s, now, req, id, top).1.None?
    ensures var s', n := Assign(s, now, req, id, top).0, |s.mail.log|;
      && id in s'.tasks && |s'.mail.log| == n + 1
      && var t, m := s'.tasks[id], s'.mail.log[n];
      && s' == s.(tasks := s.tasks[id := t], mail := s'.mail)
      && t.state == Queued && !t.cancelAcked && t.createdAt == now && t.updatedAt == now && t.heartbeatAt == 0
      && t.progress.turns == 0 && t.progress.mailedAt == 0
      && t.requester == req.requester && Available(s, now, req.runtime, t.launcher)
      && Provider(t.runtime) in s.agents[t.launcher].caps && (req.runtime != "" ==> t.runtime == req.runtime)
      && (req.deadlineS <= 0 ==> t.deadline == 300)
      && (0 < req.deadlineS <= 1800 ==> t.deadline == req.deadlineS)
      && (req.deadlineS > 1800 ==> t.deadline == 1800)
      && m.body == LaunchBody(id, t.runtime, req.brief, req.requester, t.deadline, req.overhead)
      && m.task == Some(id) && m.createdAt == now && m.from == req.requester.agent
      && m.replyTo == Some(req.requester) && m.fromScope == Mail.Stamped(req.requester, t.launcher.scope)
      && Mail.Unread(s'.mail, t.launcher.scope, t.launcher.agent, n)
  {
    AssignEffect(s, now, req, id, top);
    PickIsFaithful(s, now, req.runtime, top);
    AvailableIs(s, now, req.runtime, top.value);
    if req.runtime == "" { DefaultResolves(s.agents[top.value].caps); }
  }

  // ---------------------------------------------------------------- credentials

  /** A minted child opens the gate with the new secret and no other, and no other relay session is touched. */
  lemma MintedChildAuthenticates(s: Store, now: int, id: TaskId, launcher: Session, secret: Secret, minted: Secret,
                                 other: Session, try: Secret)
    requires RelayUnique(s.agents) && ReissueRefused(s, id, launcher, secret).None?
    ensures var agents := Reissue(s, now, id, launcher, secret, minted);
      && VerifyRelaySecret(agents, Eyes(id), try) == (if try == minted then Some(ChildRow(id, s.tasks[id])) else None)
      && (other != Eyes(id) ==> VerifyRelaySecret(agents, other, try) == VerifyRelaySecret(s.agents, other, try))
  {
    var agents, child := Reissue(s, now, id, launcher, secret, minted), ChildRow(id, s.tasks[id]);
    forall row | row in agents && row.agent == Eyes(id) ensures row == child {
      assert row != child ==> row in s.agents;
    }
    assert IsRelayRow(agents, child);
    assert FirstRow(agents, Eyes(id)) == Some(child);
    if other != Eyes(id) { GateUntouched(s.agents, agents, other, try); }
  }

  predicate SameCredential(agents: Agents, agents': Agents, row: Address) {
    && row in agents && row in agents'
    && agents'[row].origin == agents[row].origin && agents'[row].secret == agents[row].secret
  }

  /** The gate reads only relay rows of the session it is asked about. */
  lemma GateUntouched(agents: Agents, agents': Agents, session: Session, try: Secret)
    requires RelayUnique(agents) && RelayUnique(agents')
    requires forall row: Address :: row.agent == session && IsRelayRow(agents, row) ==>
      SameCredential(agents, agents', row)
    requires forall row: Address :: row.agent == session && IsRelayRow(agents', row) ==> IsRelayRow(agents, row)
    ensures VerifyRelaySecret(agents', session, try) == VerifyRelaySecret(agents, session, try)
  {
    if row :| IsRelayRow(agents, row) && row.agent == session {
      assert IsRelayRow(agents', row);
      assert FirstRow(agents, session) == Some(row) && FirstRow(agents', session) == Some(row);
    }
  }

  /**
   * A local registration leaves its row present and seen now, keeps whatever identity was there, touches
   * no other row, and neither grants nor takes away any relay credential; repeating it changes nothing.
   */
  lemma RegistrationGrantsNothing(agents: Agents, now: int, row: Address, parent: Option<Session>, session: Session,
                                  try: Secret)
    requires RelayUnique(agents)
    ensures var agents' := Register(agents, now, row, parent);
      && agents'.Keys == agents.Keys + {row}
      && (forall other :: other in agents && other != row ==> agents'[other] == agents[other])
      && agents'[row].status == Active && agents'[row].lastSeen == now
      && (row in agents && agents[row].lastSeen <= now ==> SameIdentity(agents[row], agents'[row]))
      && (row !in agents ==>
            agents'[row].origin == Local && agents'[row].secret == None && agents'[row].parent == parent)
      && VerifyRelaySecret(agents', session, try) == VerifyRelaySecret(agents, session, try)
      && Register(agents', now, row, parent) == agents'
  {
    var agents' := Register(agents, now, row, parent);
    assert forall other :: IsRelayRow(agents', other) ==> IsRelayRow(agents, other);
    GateUntouched(agents, agents', session, try);
  }

  /** A sample writes its task's progress and heartbeat and its child's presence, and nothing else of either. */
  lemma SampleTouchesOnly(s: Store, now: int, id: TaskId, next: Progress)
    requires id in s.tasks
    ensures var s', child := Sampled(s, now, id, next), ChildRow(id, s.tasks[id]);
      && s'.mail == s.mail && s'.tasks.Keys == s.tasks.Keys && s'.agents.Keys == s.agents.Keys
      && (forall other :: other in s.tasks && other != id ==> s'.tasks[other] == s.tasks[other])
      && s'.tasks[id].progress == next && s'.tasks[id].heartbeatAt == now
      && Rank(s'.tasks[id]) == Rank(s.tasks[id]) && s'.tasks[id].updatedAt == s.tasks[id].updatedAt
      && (forall row :: row in s.agents && row != child ==> s'.agents[row] == s.agents[row])
      && (child in s.agents ==>
            && (Live(s'.agents[child], now) <==> s.agents[child].status != Gone)
            && (s.agents[child].lastSeen <= now ==> SameIdentity(s.agents[child], s'.agents[child])))
  {
  }

  /** A launcher that registers is let in with the secret of its first registration, and never with another. */
  lemma LauncherAuthenticates(agents: Agents, now: int, row: Address, caps: set<Cap>, secret: Secret, try: Secret)
    requires RelayUnique(agents) && RegisterRelay(agents, now, row, caps, secret).1.None?
    ensures VerifyRelaySecret(RegisterRelay(agents, now, row, caps, secret).0, row.agent, try)
              == (if try == secret then Some(row) else None)
    ensures forall first: Secret :: VerifyRelaySecret(agents, row.agent, first).Some? ==> secret == first
  {
    var agents' := RegisterRelay(agents, now, row, caps, secret).0;
    assert IsRelayRow(agents', row);
    forall other | IsRelayRow(agents', other) && other.agent == row.agent ensures other == row {
      assert other != row ==> IsRelayRow(agents, other);
    }
    assert FirstRow(agents', row.agent) == Some(row);
  }
}
