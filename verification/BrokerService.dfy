/** What the daemon grants a broker, and so: a brief that is taken can be run, and what it says can reach the asker. */
module BrokerService {
  import opened Wire
  import opened Ledger
  import opened LedgerRuns
  import opened LedgerInvariant
  import opened LedgerTheorems
  import opened LedgerRights
  import opened LedgerAnswers
  import opened Broker
  import opened BrokerInvariant
  import opened BrokerSafety
  import opened BrokerRuns
  import opened BrokerTheorems
  import opened BrokerOutcomes
  import opened BrokerBriefs
  import opened BrokerProgress
  import opened Envelopes
  import J = Journal
  import Mail

  // ---------------------------------------------------------------- the daemon lets it in

  /** The secret of a session's relay row opens the gate. */
  lemma GateOpens(s: Store, row: Address, secret: Secret)
    requires RelayUnique(s.agents) && row in s.agents && s.agents[row].origin == Relay
    requires s.agents[row].secret == Some(secret)
    ensures VerifyRelaySecret(s.agents, row.agent, secret) == Some(row)
  {
    assert IsRelayRow(s.agents, row);
    assert FirstRow(s.agents, row.agent) == Some(row);
  }

  /** The relay row of a task's broker, under the broker's own secret. */
  predicate IsHere(s: Store, t: Task, h: Host) {
    && t.launcher.agent == h.id && t.launcher in s.agents && s.agents[t.launcher].secret == Some(h.secret)
  }

  /** A relay row of this kind, under this secret. */
  predicate Wears(agents: Agents, row: Address, kind: Kind, secret: Secret) {
    RelayKind(agents, row, kind) && agents[row].secret == Some(secret)
  }

  /** A broker that asks for the child of a task it holds gets it, unless somebody else wears the child's id. */
  lemma MintIsServed(d: Daemon, now: int, h: Host, minted: Secret) returns (req: Frame, d': Daemon)
    requires Inv(d) && d.db.clock <= now && h.main.Minting? && h.main.record.launch.task in d.db.tasks
    requires var id, t := h.main.record.launch.task, d.db.tasks[h.main.record.launch.task];
      && HoldsBroker(t) && IsHere(d.db, t, h) && h.main.record.launch.replyTo == Some(t.requester)
      && !ForeignChild(d.db.agents, id, t)
    ensures MainCalls(h, req) && req.MintRequest? && Serves(d, now, req, minted, true, d')
    ensures d'.db == d.db.(agents := d'.db.agents, clock := now)
    ensures var id, t := h.main.record.launch.task, d.db.tasks[h.main.record.launch.task];
      && Wears(d'.db.agents, ChildRow(id, t), EyesChild, minted)
      && forall row :: row in d.db.agents && row != ChildRow(id, t) ==>
           row in d'.db.agents && d'.db.agents[row] == d.db.agents[row]
  {
    var id := h.main.record.launch.task;
    var t := d.db.tasks[id];
    assert LauncherPresent(d.db, t);
    GateOpens(d.db, t.launcher, h.secret);
    req := MintRequest(id, t.requester.scope, h.id, h.secret);
    var op := Rows(ReissueRow(id, h.id, h.secret, minted));
    d' := At(After(d, now, op), now);
    MintGranted(d.db, now, id, h.id, h.secret, minted);
  }

  /** The child it got, and the secret that opens the gate for it, are in hand; in recovery so is why it ends. */
  lemma MintedIsRemembered(h: Host, minted: Secret, h': Host)
    requires MintAnswered(h, true, minted, h')
    ensures InHand(h'.main).Some? && h.main.record.launch.replyTo.Some?
    ensures var r, r', id := h.main.record, InHand(h'.main).value, h.main.record.launch.task;
      && r'.launch == r.launch && r'.child == Some(J.Child(Address(r.launch.replyTo.value.scope, Eyes(id)), minted))
      && (h.main.next.ToBatch? || r.state == J.Terminal ==> r'.state == r.state && r'.terminal == r.terminal)
      && (h.main.next.ToRecovery? && r.state == J.Received ==>
            r'.state == J.Terminal && r'.terminal == Some(FailedBody(id,
              "broker restarted before accepting task; execution was not started")))
  {
  }

  /** And they go to the journal and to the worker that takes the task over. */
  lemma HandOverRemembers(h: Host, h': Host) returns (k: nat)
    requires HandsOver(h, h') && MainSound(h)
    ensures var r, id := h.main.record, h.main.record.launch.task;
      && k !in h.workers && k in h'.workers && h'.workers[k].record == h'.journal[id] && id in h'.journal
      && h'.journal[id].launch == r.launch && h'.journal[id].child == r.child
      && h'.journal[id].terminal == r.terminal
      && (r.state == J.Received ==> h'.workers[k].Accepting?)
      && (r.state == J.Terminal ==> h'.workers[k].Supervising?)
  {
    var r := if h.main.record.state == J.Received then h.main.record.(state := J.Accepted) else h.main.record;
    var w := if r.state == J.Accepted then Accepting(r) else Supervising(r, Sealing, false);
    var h1 :| Puts(h.(main := Handling(h.main.batch)), r, h1) && Spawned(h1, w, h');
    k :| k !in h1.workers && h' == h1.(workers := h1.workers[k := w]);
  }

  /** The gate passes on a report from a relay row that proves itself. */
  lemma ReportReaches(d: Daemon, now: int, row: Address, secret: Secret, target: Address, body: Body)
    returns (d': Daemon)
    requires RelayUnique(d.db.agents) && d.db.clock <= now && Claims(body).Some?
    requires row in d.db.agents && d.db.agents[row].origin == Relay && d.db.agents[row].secret == Some(secret)
    ensures var a := Caller(row.scope, Some(row.agent), Relay, row);
      && d'.db == Report(d.db, now, a, target, body).0.(clock := now)
      && (Report(d.db, now, a, target, body).1.Ok? ==>
            Serves(d, now, ReportRequest(row.agent, secret, Some(target), body), 0, true, d'))
  {
    GateOpens(d.db, row, secret);
    var op := Tasks(ReportTask(Caller(row.scope, Some(row.agent), Relay, row), target, body));
    d' := At(After(d, now, op), now);
  }

  /** A worker's accept of a queued task is granted while the requester is there. */
  lemma AcceptIsServed(d: Daemon, now: int, h: Host, k: nat) returns (req: Frame, d': Daemon)
    requires Inv(d) && d.db.clock <= now && k in h.workers && h.workers[k].Accepting? && h.workers[k].record.child.Some?
    requires var id := h.workers[k].record.launch.task;
      && id in d.db.tasks
      && var t := d.db.tasks[id];
      && t.state == Queued && t.requester in d.db.agents && IsHere(d.db, t, h) && t.launcher != ChildRow(id, t)
      && h.workers[k].record.launch.replyTo == Some(t.requester)
    ensures WorkerCalls(h, k, req) && Serves(d, now, req, 0, true, d')
    ensures var id := h.workers[k].record.launch.task;
      && MovedTo(d.db.(clock := now), now, id, Accepted, d'.db)
      && req.ReportRequest? && req.body == AcceptedBody(id, h.workers[k].record.child.value.ref)
  {
    var r := h.workers[k].record;
    var t := d.db.tasks[r.launch.task];
    assert LauncherPresent(d.db, t);
    req := AcceptRequest(h, r);
    var a := Caller(t.launcher.scope, Some(t.launcher.agent), Relay, t.launcher);
    AcceptAnswered(d.db, now, a, t.requester, req.body);
    d' := ReportReaches(d, now, t.launcher, h.secret, t.requester, req.body);
  }

  /** One more message, with this body, unread in the inbox of `to`. */
  predicate Delivers(s: Store, s': Store, to: Address, body: Body) {
    && |s'.mail.log| == |s.mail.log| + 1 && s'.mail.log[|s.mail.log|].body == body
    && Mail.Unread(s'.mail, to.scope, to.agent, |s.mail.log|)
  }

  /** A terminal sent under the child's credential settles an accepted task while the requester is there. */
  lemma TerminalIsServed(d: Daemon, now: int, h: Host, r: J.Record) returns (d': Daemon)
    requires Inv(d) && d.db.clock <= now && Terminated(r) && r.child.Some? && r.launch.task in d.db.tasks
    requires var id, t := r.launch.task, d.db.tasks[r.launch.task];
      && t.state == Accepted && t.requester in d.db.agents && r.launch.replyTo == Some(t.requester)
      && Wears(d.db.agents, ChildRow(id, t), EyesChild, r.child.value.secret)
    ensures Serves(d, now, TerminalRequest(h, r), 0, true, d')
    ensures r.launch.task in d'.db.tasks && d'.db.tasks[r.launch.task].state == Outcome(r.terminal.value)
    ensures Delivers(d.db, d'.db, d.db.tasks[r.launch.task].requester, r.terminal.value)
  {
    var t, row := d.db.tasks[r.launch.task], ChildRow(r.launch.task, d.db.tasks[r.launch.task]);
    var a := Caller(row.scope, Some(row.agent), Relay, row);
    ChildAnswered(d.db, now, a, t.requester, r.terminal.value);
    MovesCarryTheirMail(d.db, now, r.launch.task, Outcome(r.terminal.value), a, r.terminal.value);
    MailSaysWhatMoved(d.db, now, r.launch.task, Outcome(r.terminal.value), a, r.terminal.value);
    d' := ReportReaches(d, now, row, r.child.value.secret, t.requester, r.terminal.value);
  }

  // ---------------------------------------------------------------- endings without a run

  /** What recovery does with a record: an ended one is sent again, an accepted one ends, a received one asks first. */
  lemma RecoveryTakesUp(h: Host, h': Host)
    requires Recovers(h, h') && h.main.todo != []
    requires J.ValidRecord(h.main.todo[0].launch.task, h.main.todo[0])
    ensures var r, rest := h.main.todo[0], ToRecovery(h.main.todo[1..]);
      match r.state
      case Received => h'.main == Minting(r, rest)
      case Accepted =>
        && h'.main == Settling(h'.main.record, Sealing, rest) && h'.main.record.launch == r.launch
        && h'.main.record.child == r.child && h'.main.record.state == J.Terminal
        && h'.main.record.terminal ==
           Some(FailedBody(r.launch.task, "broker restarted after accepting task; execution was not repeated"))
      case Terminal => h'.main == Settling(r, Sealing, rest)
      case Delivered => h'.main == Recovering(h.main.todo[1..])
  {
  }

  /** A refused mint fails the task, unless it had ended already, and gives back the broker it had taken. */
  lemma RefusedMintFails(h: Host, minted: Secret, h': Host)
    requires MintAnswered(h, false, minted, h')
    ensures h'.main.Settling? && h'.main.phase == Sealing && h'.main.next == h.main.next
    ensures var r, r', id := h.main.record, h'.main.record, h.main.record.launch.task;
      && r'.launch == r.launch && r'.child == r.child
      && (r.terminal.Some? ==> r' == r)
      && (r.terminal.None? ==> r'.state == J.Terminal && r'.terminal.Some? && r'.terminal.value.FailedBody?
                               && r'.terminal.value.task == id)
      && (h.main.next.ToBatch? && r.state == J.Received && h.active == Some(id) ==> h'.active.None?)
  {
  }

  /** A refused accept fails the task, and its worker still gives the broker back. */
  lemma RefusedAcceptFails(h: Host, k: nat, h': Host)
    requires WorkerAnswered(h, k, false, h') && h.workers[k].Accepting?
    ensures k in h'.workers && h'.workers[k].Supervising? && h'.workers[k].phase == Sealing && h'.workers[k].holds
    ensures var r, r' := h.workers[k].record, h'.workers[k].record;
      && r'.launch == r.launch && r'.child == r.child && r'.state == J.Terminal
      && r'.terminal.Some? && r'.terminal.value.FailedBody? && r'.terminal.value.task == r.launch.task
  {
  }

  // ---------------------------------------------------------------- from a launch to a start

  function Last(run: seq<System>): System
    requires |run| > 0
  {
    run[|run| - 1]
  }

  lemma Extended(run: seq<System>, y: System) returns (run': seq<System>)
    requires Broker.IsRun(run) && Step(Last(run), y)
    ensures Broker.IsRun(run') && run' == run + [y]
  {
    run' := run + [y];
    forall i | 0 <= i < |run'| - 1 ensures Broker.StepAt(run', i) {
      if i < |run| - 1 { assert Broker.StepAt(run, i); }
    }
  }

  /** The asker and the broker of a task are both there, and nobody stands where the child would. */
  predicate Attainable(s: Store, id: TaskId, h: Host, state: TaskState) {
    && id in s.tasks && s.tasks[id].state == state && s.tasks[id].requester in s.agents
    && IsHere(s, s.tasks[id], h) && s.tasks[id].launcher != ChildRow(id, s.tasks[id])
  }

  /** A broker with nothing else to do looks at the launch of a task it does not know. */
  predicate Offered(y: System, b: Session) {
    && b in y.hosts
    && var h := y.hosts[b];
    && h.main.Handling? && h.main.batch != [] && AcceptedLaunch(h.main.batch[0]) && h.active.None?
    && var id := h.main.batch[0].body.task;
    && id !in h.journal
    && Attainable(y.daemon.db, id, h, TaskState.Queued) && !ForeignChild(y.daemon.db.agents, id, y.daemon.db.tasks[id])
  }

  /** What a broker's own step leaves alone. */
  predicate OnItsOwn(y: System, b: Session, h': Host, y': System)
    requires b in y.hosts
  {
    y' == y.(hosts := y.hosts[b := h']) && h'.id == y.hosts[b].id && h'.secret == y.hosts[b].secret
  }

  /** The broker journals the launch and asks for the child. */
  lemma TakesIt(run: seq<System>, b: Session) returns (run': seq<System>, h': Host)
    requires Broker.IsRun(run) && Offered(Last(run), b)
    ensures Broker.IsRun(run') && |run'| == |run| + 1 && run <= run' && OnItsOwn(Last(run), b, h', Last(run'))
    ensures var h := Last(run).hosts[b];
      && h'.main.Minting? && h'.main.record.state == J.Received && h'.main.next == ToBatch(h.main.batch[1..])
      && h'.main.record.launch.task == h.main.batch[0].body.task && h'.active == Some(h.main.batch[0].body.task)
  {
    var y, h := Last(run), Last(run).hosts[b];
    var l, rest := LaunchOf(h.main.batch[0].body), ToBatch(h.main.batch[1..]);
    var h1 := h.(main := Minting(Received(l), rest), active := Some(l.task));
    PutPossible(h1, Received(l));
    h' := Kept(h1, Received(l));
    assert LaunchesNew(h, h') && MainStep(h, h');
    run' := Goes(run, b, h');
  }

  /** A step of a broker's own goes into the run. */
  lemma Goes(run: seq<System>, b: Session, h': Host) returns (run': seq<System>)
    requires Broker.IsRun(run) && b in Last(run).hosts
    requires MainStep(Last(run).hosts[b], h') || exists k :: WorkerStep(Last(run).hosts[b], k, h')
    ensures Broker.IsRun(run') && run' == run + [Last(run).(hosts := Last(run).hosts[b := h'])]
  {
    var y := Last(run);
    var y' := y.(hosts := y.hosts[b := h']);
    assert LocalStep(y, b, y') && HostStep(y, b, y');
    run' := Extended(run, y');
  }

  /** So does a call of a worker that is granted. */
  lemma WorkerIsGranted(run: seq<System>, b: Session, k: nat, now: int, req: Frame, d': Daemon, h': Host)
    returns (run': seq<System>)
    requires Broker.IsRun(run) && b in Last(run).hosts && WorkerCalls(Last(run).hosts[b], k, req)
    requires Serves(Last(run).daemon, now, req, 0, true, d')
    requires WorkerAnswered(Sent(Last(run).hosts[b], req), k, true, h')
    ensures Broker.IsRun(run') && |run'| == |run| + 1 && run <= run'
    ensures Last(run').daemon == d' && Last(run').hosts == Last(run).hosts[b := h']
    ensures var w := Last(run).hosts[b].workers[k];
      Last(run').starts == Last(run).starts + if w.Accepting? then [(b, TaskOf(w))] else []
  {
    var y := Last(run);
    var w := y.hosts[b].workers[k];
    var started := if w.Accepting? then [(b, TaskOf(w))] else [];
    var y' := y.(daemon := d', hosts := y.hosts[b := h'], starts := y.starts + started);
    assert WorkerCallStep(y, b, k, now, req, true, y') && HostStep(y, b, y');
    run' := Extended(run, y');
  }

  /** And a call of the poll loop. */
  lemma MainIsGranted(run: seq<System>, b: Session, now: int, req: Frame, minted: Secret, d': Daemon, h': Host)
    returns (run': seq<System>)
    requires Broker.IsRun(run) && b in Last(run).hosts && MainCalls(Last(run).hosts[b], req)
    requires Serves(Last(run).daemon, now, req, minted, true, d')
    requires var h := Sent(Last(run).hosts[b], req);
      if req.MintRequest? then MintAnswered(h, true, minted, h') else MainReportAnswered(h, true, h')
    ensures Broker.IsRun(run') && |run'| == |run| + 1 && run <= run'
    ensures Last(run').daemon == d' && Last(run').hosts == Last(run).hosts[b := h']
    ensures Last(run').starts == Last(run).starts
  {
    var y := Last(run);
    var y' := y.(daemon := d', hosts := y.hosts[b := h'], held := y.held + Issued(req, minted));
    assert MainCallStep(y, b, now, req, minted, true, y') && HostStep(y, b, y');
    run' := Extended(run, y');
  }

  /** The daemon mints the child, and the broker has its secret in hand. */
  lemma GetsItsChild(run: seq<System>, b: Session, now: int, minted: Secret) returns (run': seq<System>, h': Host)
    requires Broker.IsRun(run) && b in Last(run).hosts && Last(run).daemon.db.clock <= now
    requires var h := Last(run).hosts[b];
      && h.main.Minting? && h.main.next.ToBatch? && h.main.record.state == J.Received
      && var id := h.main.record.launch.task;
      && Attainable(Last(run).daemon.db, id, h, TaskState.Queued)
      && !ForeignChild(Last(run).daemon.db.agents, id, Last(run).daemon.db.tasks[id])
    ensures Broker.IsRun(run') && |run'| == |run| + 1 && run <= run'
    ensures Last(run').hosts == Last(run).hosts[b := h'] && Last(run').starts == Last(run).starts
    ensures var y, y', h := Last(run), Last(run'), Last(run).hosts[b];
      && var id := h.main.record.launch.task;
      && h'.id == h.id && h'.secret == h.secret && h'.active == h.active
      && h'.main.Minted? && h'.main.batch == h.main.next.batch && h'.main.record.state == J.Received
      && h'.main.record.launch.task == id && h'.main.record.child.Some?
      && y'.daemon.db.clock == now && y'.daemon.db.mail == y.daemon.db.mail
      && Attainable(y'.daemon.db, id, h', TaskState.Queued) && y'.daemon.db.tasks == y.daemon.db.tasks
      && Wears(y'.daemon.db.agents, ChildRow(id, y'.daemon.db.tasks[id]), EyesChild, h'.main.record.child.value.secret)
  {
    var y, h := Last(run), Last(run).hosts[b];
    HandAnswersTheAsker(run, b);
    DaemonIsSound(run, |run| - 1);
    var req, d' := MintIsServed(y.daemon, now, h, minted);
    var r := h.main.record;
    var child := J.Child(Address(r.launch.replyTo.value.scope, Eyes(r.launch.task)), minted);
    h' := Sent(h, req).(main := Minted(r.(child := Some(child)), h.main.next.batch));
    assert MintAnswered(Sent(h, req), true, minted, h');
    run' := MainIsGranted(run, b, now, req, minted, d', h');
  }

  lemma HandAnswersTheAsker(run: seq<System>, b: Session)
    requires Broker.IsRun(run) && b in Last(run).hosts && InHand(Last(run).hosts[b].main).Some?
    requires InHand(Last(run).hosts[b].main).value.launch.task in Last(run).daemon.db.tasks
    ensures var r := InHand(Last(run).hosts[b].main).value;
      r.launch.replyTo == Some(Last(run).daemon.db.tasks[r.launch.task].requester)
  {
    RunBriefed(run, |run| - 1, b);
    SystemEnveloped(run, |run| - 1);
    AnswersTheAsker(Last(run).daemon.db, InHand(Last(run).hosts[b].main).value);
  }

  lemma WorkerAnswersTheAsker(run: seq<System>, b: Session, k: nat)
    requires Broker.IsRun(run) && b in Last(run).hosts && k in Last(run).hosts[b].workers
    requires TaskOf(Last(run).hosts[b].workers[k]) in Last(run).daemon.db.tasks
    ensures var r := Last(run).hosts[b].workers[k].record;
      r.launch.replyTo == Some(Last(run).daemon.db.tasks[r.launch.task].requester)
  {
    RunBriefed(run, |run| - 1, b);
    SystemEnveloped(run, |run| - 1);
    AnswersTheAsker(Last(run).daemon.db, Last(run).hosts[b].workers[k].record);
  }

  /** The task goes to a worker that will ask for the accept. */
  lemma HandsItOver(run: seq<System>, b: Session) returns (run': seq<System>, h': Host, k: nat)
    requires Broker.IsRun(run) && b in Last(run).hosts
    requires Last(run).hosts[b].main.Minted? && Last(run).hosts[b].main.record.state == J.Received
    ensures Broker.IsRun(run') && |run'| == |run| + 1 && run <= run' && OnItsOwn(Last(run), b, h', Last(run'))
    ensures var h := Last(run).hosts[b];
      && k in h'.workers && h'.workers[k] == Accepting(h.main.record.(state := J.Accepted))
      && h'.main == Handling(h.main.batch) && h'.active == h.active
  {
    var h := Last(run).hosts[b];
    HostIsSound(run, |run| - 1, b);
    assert TaskInv(h, h.main.record.launch.task) && MainOn(h, h.main.record.launch.task);
    var h0, r := h.(main := Handling(h.main.batch)), h.main.record.(state := J.Accepted);
    PutPossible(h0, r);
    var h1 := Kept(h0, r);
    k := SomeFree(h1.workers.Keys);
    assert k !in h1.workers;
    h' := h1.(workers := h1.workers[k := Accepting(r)]);
    assert Spawned(h1, Accepting(r), h') && HandsOver(h, h') && MainStep(h, h');
    run' := Goes(run, b, h');
  }

  /** The daemon grants the accept, and the provider is started. */
  lemma StartsIt(run: seq<System>, b: Session, k: nat, now: int) returns (run': seq<System>, h': Host)
    requires Broker.IsRun(run) && b in Last(run).hosts && k in Last(run).hosts[b].workers
    requires Last(run).hosts[b].workers[k].Accepting? && Last(run).daemon.db.clock <= now
    requires var h := Last(run).hosts[b]; Attainable(Last(run).daemon.db, TaskOf(h.workers[k]), h, TaskState.Queued)
    ensures Broker.IsRun(run') && |run'| == |run| + 1 && run <= run' && Last(run').hosts == Last(run).hosts[b := h']
    ensures var y, y', h := Last(run), Last(run'), Last(run).hosts[b];
      && var id := TaskOf(h.workers[k]);
      && h'.id == h.id && h'.secret == h.secret && h'.active == h.active && h'.main == h.main
      && k in h'.workers && h'.workers[k] == Running(h.workers[k].record)
      && y'.starts == y.starts + [(b, id)] && y'.daemon.db.clock == now
      && y'.daemon.db.agents == y.daemon.db.agents && id in y'.daemon.db.tasks
      && y'.daemon.db.tasks[id].state == TaskState.Accepted
      && y'.daemon.db.tasks[id].requester == y.daemon.db.tasks[id].requester
      && y'.daemon.db.tasks[id].launcher == y.daemon.db.tasks[id].launcher
  {
    var y, h := Last(run), Last(run).hosts[b];
    HostIsSound(run, |run| - 1, b);
    UndecidedIsAccepted(h, k);
    WorkerAnswersTheAsker(run, b, k);
    DaemonIsSound(run, |run| - 1);
    var req, d' := AcceptIsServed(y.daemon, now, h, k);
    h' := Sent(h, req).(workers := h.workers[k := Running(h.workers[k].record)]);
    assert WorkerAnswered(Sent(h, req), k, true, h');
    run' := WorkerIsGranted(run, b, k, now, req, d', h');
  }

  /**
   * In every reachable state, a launch in front of an idle broker can be brought to a start, if the asker and the
   * broker are there and the child's id is free.
   */
  lemma BriefCanBeStarted(run: seq<System>, b: Session, now: int, minted: Secret)
    returns (run': seq<System>, h': Host, k: nat)
    requires Broker.IsRun(run) && Offered(Last(run), b) && Last(run).daemon.db.clock <= now
    ensures Broker.IsRun(run') && run <= run' && Last(run').hosts == Last(run).hosts[b := h']
    ensures var y, y', h := Last(run), Last(run'), Last(run).hosts[b];
      && var id := h.main.batch[0].body.task;
      && y'.starts == y.starts + [(b, id)] && k in h'.workers && h'.workers[k].Running? && TaskOf(h'.workers[k]) == id
      && h'.id == h.id && h'.secret == h.secret && h'.active == Some(id) && h'.main == Handling(h.main.batch[1..])
      && Answerable(y'.daemon, now, y.daemon.db.tasks[id].requester, h'.workers[k].record)
  {
    var run1, h1 := TakesIt(run, b);
    var run2, h2 := GetsItsChild(run1, b, now, minted);
    var run3, h3;
    run3, h3, k := HandsItOver(run2, b);
    run', h' := StartsIt(run3, b, k, now);
  }

  /** What it takes for a terminal to reach the asker. */
  predicate Answerable(d: Daemon, now: int, asker: Address, r: J.Record) {
    && d.db.clock <= now && r.launch.task in d.db.tasks && r.child.Some?
    && var t := d.db.tasks[r.launch.task];
    && t.state == TaskState.Accepted && t.requester == asker && asker in d.db.agents
    && Wears(d.db.agents, ChildRow(r.launch.task, t), EyesChild, r.child.value.secret)
  }

  // ---------------------------------------------------------------- from a start to an answer

  /** The provider ends with a report. */
  lemma ReportsIt(run: seq<System>, b: Session, k: nat, report: string) returns (run': seq<System>, h': Host)
    requires Broker.IsRun(run) && b in Last(run).hosts && k in Last(run).hosts[b].workers
    requires Last(run).hosts[b].workers[k].Running?
    ensures Broker.IsRun(run') && run <= run' && OnItsOwn(Last(run), b, h', Last(run'))
    ensures var h := Last(run).hosts[b];
      && var r := h.workers[k].record;
      && h'.main == h.main && h'.active == h.active && k in h'.workers
      && h'.workers[k] == Supervising(Ended(r, ResultBody(r.launch.task, report)), Sealing, true)
  {
    var h := Last(run).hosts[b];
    var body := ResultBody(TaskOf(h.workers[k]), report);
    h' := h.(workers := h.workers[k := Supervising(Ended(h.workers[k].record, body), Sealing, true)]);
    assert Ends(h, k, body, h') && WorkerStep(h, k, h');
    run' := Goes(run, b, h');
  }

  lemma SupervisorIsTerminated(h: Host, k: nat)
    requires HostInv(h) && k in h.workers && h.workers[k].Supervising?
    ensures Terminated(h.workers[k].record)
  {
    assert TaskInv(h, TaskOf(h.workers[k])) && WorkerOn(h, TaskOf(h.workers[k]), k);
  }

  /** The broker makes a terminal durable. */
  lemma SealsIt(run: seq<System>, b: Session, k: nat) returns (run': seq<System>, h': Host)
    requires Broker.IsRun(run) && b in Last(run).hosts && k in Last(run).hosts[b].workers
    requires var w := Last(run).hosts[b].workers[k]; w.Supervising? && w.phase == Sealing
    ensures Broker.IsRun(run') && run <= run' && OnItsOwn(Last(run), b, h', Last(run'))
    ensures var h := Last(run).hosts[b];
      && h'.main == h.main && h'.active == h.active && k in h'.workers
      && h'.workers[k] == h.workers[k].(phase := Sending)
  {
    var h := Last(run).hosts[b];
    var w := h.workers[k];
    HostIsSound(run, |run| - 1, b);
    SupervisorIsTerminated(h, k);
    var h1 := h.(workers := h.workers[k := w.(phase := Sending)]);
    PutPossible(h1, w.record);
    h' := Kept(h1, w.record);
    assert WorkerSeals(h, k, h') && WorkerStep(h, k, h');
    run' := Goes(run, b, h');
  }

  lemma TerminalReaches(run: seq<System>, now: int, h: Host, r: J.Record) returns (d': Daemon)
    requires Broker.IsRun(run) && Terminated(r) && r.launch.task in Last(run).daemon.db.tasks
    requires var asker := Last(run).daemon.db.tasks[r.launch.task].requester;
      Answerable(Last(run).daemon, now, asker, r) && r.launch.replyTo == Some(asker)
    ensures Serves(Last(run).daemon, now, TerminalRequest(h, r), 0, true, d')
    ensures r.launch.task in d'.db.tasks && d'.db.tasks[r.launch.task].state == Outcome(r.terminal.value)
    ensures Delivers(Last(run).daemon.db, d'.db, Last(run).daemon.db.tasks[r.launch.task].requester, r.terminal.value)
  {
    DaemonIsSound(run, |run| - 1);
    d' := TerminalIsServed(Last(run).daemon, now, h, r);
  }

  /** The daemon takes the terminal and mails it. */
  lemma SendsIt(run: seq<System>, b: Session, k: nat, now: int, asker: Address) returns (run': seq<System>, h': Host)
    requires Broker.IsRun(run) && b in Last(run).hosts && k in Last(run).hosts[b].workers
    requires var w := Last(run).hosts[b].workers[k];
      w.Supervising? && w.phase == Sending && Answerable(Last(run).daemon, now, asker, w.record)
    ensures Broker.IsRun(run') && run <= run' && Last(run').hosts == Last(run).hosts[b := h']
    ensures var y, y', h := Last(run), Last(run'), Last(run).hosts[b];
      && var w := h.workers[k];
      && h'.main == h.main && h'.active == h.active && k in h'.workers && h'.workers[k] == w.(phase := Closing)
      && y'.starts == y.starts && TaskOf(w) in y'.daemon.db.tasks && w.record.terminal.Some?
      && y'.daemon.db.tasks[TaskOf(w)].state == Outcome(w.record.terminal.value)
      && Delivers(y.daemon.db, y'.daemon.db, asker, w.record.terminal.value)
  {
    var y, h := Last(run), Last(run).hosts[b];
    var w := h.workers[k];
    HostIsSound(run, |run| - 1, b);
    SupervisorIsTerminated(h, k);
    WorkerAnswersTheAsker(run, b, k);
    var d' := TerminalReaches(run, now, h, w.record);
    var req := TerminalRequest(h, w.record);
    h' := Confirmed(Sent(h, req).(workers := h.workers[k := w.(phase := Closing)]), TaskOf(w));
    assert WorkerAnswered(Sent(h, req), k, true, h');
    run' := WorkerIsGranted(run, b, k, now, req, d', h');
  }

  /** The broker writes the tombstone and is idle again. */
  lemma ClosesIt(run: seq<System>, b: Session, k: nat) returns (run': seq<System>, h': Host)
    requires Broker.IsRun(run) && b in Last(run).hosts && k in Last(run).hosts[b].workers
    requires var w := Last(run).hosts[b].workers[k]; w.Supervising? && w.phase == Closing && w.holds
    ensures Broker.IsRun(run') && run <= run' && OnItsOwn(Last(run), b, h', Last(run'))
    ensures var h := Last(run).hosts[b];
      && var id := TaskOf(h.workers[k]);
      && h'.main == h.main && k !in h'.workers && id in h'.journal && h'.journal[id].state == J.Delivered
      && (h.active == Some(id) ==> h'.active.None?)
  {
    var h := Last(run).hosts[b];
    var r := J.Tombstone(TaskOf(h.workers[k]));
    PutPossible(Finished(h, k), r);
    h' := Kept(Finished(h, k), r);
    assert WorkerCloses(h, k, h') && WorkerStep(h, k, h');
    run' := Goes(run, b, h');
  }

  /**
   * And from there to any report at all: the ledger settles the task with it, the asker has it unread, and the broker
   * keeps a tombstone and is idle again.
   */
  lemma BriefCanBeAnswered(run: seq<System>, b: Session, now: int, minted: Secret, report: string)
    returns (run': seq<System>, m: nat)
    requires Broker.IsRun(run) && Offered(Last(run), b) && Last(run).daemon.db.clock <= now
    ensures Broker.IsRun(run') && run <= run' && b in Last(run').hosts
    ensures var y, y', h, h' := Last(run), Last(run'), Last(run).hosts[b], Last(run').hosts[b];
      && var id, log := h.main.batch[0].body.task, y'.daemon.db.mail.log;
      && y'.starts == y.starts + [(b, id)]
      && id in y'.daemon.db.tasks && y'.daemon.db.tasks[id].state == TaskState.Done
      && var asker := y.daemon.db.tasks[id].requester;
      && m < |log| && log[m].body == ResultBody(id, report)
      && Mail.Unread(y'.daemon.db.mail, asker.scope, asker.agent, m)
      && h'.main == Handling(h.main.batch[1..]) && h'.active.None?
      && id in h'.journal && h'.journal[id].state == J.Delivered
  {
    var asker := Last(run).daemon.db.tasks[Last(run).hosts[b].main.batch[0].body.task].requester;
    var run1, h1, k := BriefCanBeStarted(run, b, now, minted);
    var run2, h2 := ReportsIt(run1, b, k, report);
    var run3, h3 := SealsIt(run2, b, k);
    var run4, h4 := SendsIt(run3, b, k, now, asker);
    m := |Last(run3).daemon.db.mail.log|;
    var h5;
    run', h5 := ClosesIt(run4, b, k);
  }

  // ---------------------------------------------------------------- from a restart to an answer

  /** What recovery has to do is what the journal says. */
  lemma RecoveryIsJournalled(h: Host)
    requires HostInv(h) && h.main.Recovering? && h.main.todo != [] && h.main.todo[0].state != J.Delivered
    ensures J.ValidRecord(h.main.todo[0].launch.task, h.main.todo[0])
  {
    assert StillTrue(h, h.main.todo[0]) && TaskInv(h, h.main.todo[0].launch.task);
  }

  /** Recovery ends a task that was accepted, and says so. */
  lemma FailsIt(run: seq<System>, b: Session) returns (run': seq<System>, h': Host)
    requires Broker.IsRun(run) && b in Last(run).hosts && Last(run).hosts[b].main.Recovering?
    requires var todo := Last(run).hosts[b].main.todo; todo != [] && todo[0].state == J.Accepted
    ensures Broker.IsRun(run') && run <= run' && OnItsOwn(Last(run), b, h', Last(run'))
    ensures var r := Last(run).hosts[b].main.todo[0];
      && h'.main.Settling? && h'.main.phase == Sealing && h'.main.next == ToRecovery(Last(run).hosts[b].main.todo[1..])
      && h'.main.record == Ended(r, FailedBody(r.launch.task,
                                               "broker restarted after accepting task; execution was not repeated"))
  {
    var h := Last(run).hosts[b];
    var r := h.main.todo[0];
    HostIsSound(run, |run| - 1, b);
    RecoveryIsJournalled(h);
    h' := h.(main := Recovered(r, ToRecovery(h.main.todo[1..])));
    assert Recovers(h, h') && MainStep(h, h');
    RecoveryTakesUp(h, h');
    run' := Goes(run, b, h');
  }

  /** The poll loop makes the terminal in its hand durable. */
  lemma SealsInHand(run: seq<System>, b: Session) returns (run': seq<System>, h': Host)
    requires Broker.IsRun(run) && b in Last(run).hosts
    requires Last(run).hosts[b].main.Settling? && Last(run).hosts[b].main.phase == Sealing
    ensures Broker.IsRun(run') && run <= run' && OnItsOwn(Last(run), b, h', Last(run'))
    ensures h'.main == Last(run).hosts[b].main.(phase := Sending) && h'.active == Last(run).hosts[b].active
  {
    var h := Last(run).hosts[b];
    HostIsSound(run, |run| - 1, b);
    SettlerIsTerminated(h);
    var h1 := h.(main := h.main.(phase := Sending));
    PutPossible(h1, h.main.record);
    h' := Kept(h1, h.main.record);
    assert MainSeals(h, h') && MainStep(h, h');
    run' := Goes(run, b, h');
  }

  lemma SettlerIsTerminated(h: Host)
    requires HostInv(h) && h.main.Settling?
    ensures Terminated(h.main.record)
  {
    assert TaskInv(h, h.main.record.launch.task) && MainOn(h, h.main.record.launch.task);
  }

  /** The daemon takes the terminal in the poll loop's hand. */
  lemma SettlesIt(run: seq<System>, b: Session, now: int, asker: Address) returns (run': seq<System>, h': Host)
    requires Broker.IsRun(run) && b in Last(run).hosts
    requires var m := Last(run).hosts[b].main;
      m.Settling? && m.phase == Sending && Answerable(Last(run).daemon, now, asker, m.record)
    ensures Broker.IsRun(run') && run <= run' && Last(run').hosts == Last(run).hosts[b := h']
    ensures var y, y', h := Last(run), Last(run'), Last(run).hosts[b];
      && var r := h.main.record;
      && h'.main == h.main.(phase := Closing) && y'.starts == y.starts
      && r.launch.task in y'.daemon.db.tasks && r.terminal.Some?
      && y'.daemon.db.tasks[r.launch.task].state == Outcome(r.terminal.value)
      && Delivers(y.daemon.db, y'.daemon.db, asker, r.terminal.value)
  {
    var y, h := Last(run), Last(run).hosts[b];
    HostIsSound(run, |run| - 1, b);
    SettlerIsTerminated(h);
    HandAnswersTheAsker(run, b);
    var d' := TerminalReaches(run, now, h, h.main.record);
    var req := TerminalRequest(h, h.main.record);
    h' := Confirmed(Sent(h, req).(main := h.main.(phase := Closing)), h.main.record.launch.task);
    assert MainReportAnswered(Sent(h, req), true, h');
    run' := MainIsGranted(run, b, now, req, 0, d', h');
  }

  /** The poll loop writes the tombstone, and goes on with what it had to do. */
  lemma ClosesInHand(run: seq<System>, b: Session) returns (run': seq<System>, h': Host)
    requires Broker.IsRun(run) && b in Last(run).hosts
    requires Last(run).hosts[b].main.Settling? && Last(run).hosts[b].main.phase == Closing
    ensures Broker.IsRun(run') && run <= run' && OnItsOwn(Last(run), b, h', Last(run'))
    ensures var h := Last(run).hosts[b];
      && var id := h.main.record.launch.task;
      && id in h'.journal && h'.journal[id].state == J.Delivered && h'.active == h.active
      && match h.main.next
         case ToBatch(batch) => h'.main == Handling(batch)
         case ToRecovery(todo) => h'.main == Recovering(todo)
  {
    var h := Last(run).hosts[b];
    var h1, r := h.(main := Resumed(h.main.next)), J.Tombstone(h.main.record.launch.task);
    PutPossible(h1, r);
    h' := Kept(h1, r);
    assert MainCloses(h, h') && MainStep(h, h');
    run' := Goes(run, b, h');
  }

  /**
   * In every reachable state, a task that had been accepted when its broker went down can be brought to a failure the
   * asker reads, and nothing is started on the way.
   */
  lemma RestartCanBeReported(run: seq<System>, b: Session, now: int) returns (run': seq<System>, m: nat)
    requires Broker.IsRun(run) && b in Last(run).hosts && Last(run).hosts[b].main.Recovering?
    requires var todo := Last(run).hosts[b].main.todo;
      && todo != [] && todo[0].state == J.Accepted && todo[0].launch.task in Last(run).daemon.db.tasks
      && Answerable(Last(run).daemon, now, Last(run).daemon.db.tasks[todo[0].launch.task].requester, todo[0])
    ensures Broker.IsRun(run') && run <= run' && b in Last(run').hosts
    ensures var y, y', h, h' := Last(run), Last(run'), Last(run).hosts[b], Last(run').hosts[b];
      && var id, log := h.main.todo[0].launch.task, y'.daemon.db.mail.log;
      && id in y'.daemon.db.tasks && y'.daemon.db.tasks[id].state == Failed && y'.starts == y.starts
      && var asker := y.daemon.db.tasks[id].requester;
      && m < |log| && Mail.Unread(y'.daemon.db.mail, asker.scope, asker.agent, m)
      && log[m].body == FailedBody(id, "broker restarted after accepting task; execution was not repeated")
      && h'.main == Recovering(h.main.todo[1..]) && id in h'.journal && h'.journal[id].state == J.Delivered
  {
    var y, id := Last(run), Last(run).hosts[b].main.todo[0].launch.task;
    var run1, h1 := FailsIt(run, b);
    var run2, h2 := SealsInHand(run1, b);
    var run3, h3 := SettlesIt(run2, b, now, y.daemon.db.tasks[id].requester);
    m := |y.daemon.db.mail.log|;
    var h4;
    run', h4 := ClosesInHand(run3, b);
  }

  // ---------------------------------------------------------------- from an early cancel to its acknowledgement

  /** A cancelled task of this broker that never got a child. */
  predicate Childless(d: Daemon, now: int, id: TaskId, h: Host) {
    && d.db.clock <= now && id in d.db.tasks
    && var t := d.db.tasks[id];
    && t.state == TaskState.Cancelled && !t.cancelAcked && IsHere(d.db, t, h)
    && t.launcher != ChildRow(id, t) && !RelayKind(d.db.agents, ChildRow(id, t), EyesChild)
  }

  /** The broker's own failure acknowledges the cancel. */
  lemma AcknowledgementIsServed(d: Daemon, now: int, h: Host, r: J.Record) returns (d': Daemon)
    requires Inv(d) && Terminated(r) && r.terminal.value.FailedBody? && r.child.None?
    requires Childless(d, now, r.launch.task, h) && r.launch.replyTo == Some(d.db.tasks[r.launch.task].requester)
    ensures Serves(d, now, TerminalRequest(h, r), 0, true, d')
    ensures var id := r.launch.task;
      d'.db == d.db.(tasks := d.db.tasks[id := d.db.tasks[id].(cancelAcked := true)], clock := now)
  {
    var t := d.db.tasks[r.launch.task];
    assert LauncherPresent(d.db, t);
    var a := Caller(t.launcher.scope, Some(t.launcher.agent), Relay, t.launcher);
    LauncherFailureAnswered(d.db, now, a, t.requester, r.terminal.value);
    CancelIsAnswered(d.db, now, a, t.requester, r.terminal.value, 0);
    d' := ReportReaches(d, now, t.launcher, h.secret, t.requester, r.terminal.value);
  }

  /** The daemon takes the acknowledgement in the poll loop's hand. */
  lemma AcknowledgesIt(run: seq<System>, b: Session, now: int) returns (run': seq<System>, h': Host)
    requires Broker.IsRun(run) && b in Last(run).hosts
    requires var m := Last(run).hosts[b].main;
      && m.Settling? && m.phase == Sending && m.record.child.None?
      && m.record.terminal == Some(FailedBody(m.record.launch.task, "cancelled"))
      && Childless(Last(run).daemon, now, m.record.launch.task, Last(run).hosts[b])
    ensures Broker.IsRun(run') && run <= run' && Last(run').hosts == Last(run).hosts[b := h']
    ensures var y, y', h := Last(run), Last(run'), Last(run).hosts[b];
      && var id, s := h.main.record.launch.task, y.daemon.db;
      && h'.main == h.main.(phase := Closing) && h'.active == h.active && y'.starts == y.starts
      && y'.daemon.db == s.(tasks := s.tasks[id := s.tasks[id].(cancelAcked := true)], clock := now)
  {
    var y, h := Last(run), Last(run).hosts[b];
    HostIsSound(run, |run| - 1, b);
    SettlerIsTerminated(h);
    HandAnswersTheAsker(run, b);
    DaemonIsSound(run, |run| - 1);
    var d' := AcknowledgementIsServed(y.daemon, now, h, h.main.record);
    var req := TerminalRequest(h, h.main.record);
    h' := Confirmed(Sent(h, req).(main := h.main.(phase := Closing)), h.main.record.launch.task);
    assert MainReportAnswered(Sent(h, req), true, h');
    run' := MainIsGranted(run, b, now, req, 0, d', h');
  }

  /**
   * In every reachable state, a cancel that arrives before its launch can be acknowledged: the ledger then gives the
   * broker back, no mail is written, and the rest of the batch is still to come.
   */
  lemma EarlyCancelCanBeAcknowledged(run: seq<System>, b: Session, now: int) returns (run': seq<System>)
    requires Broker.IsRun(run) && b in Last(run).hosts
    requires var h := Last(run).hosts[b];
      && h.main.Handling? && h.main.batch != [] && GoodCancel(h.main.batch[0])
      && h.main.batch[0].body.task !in h.journal && Childless(Last(run).daemon, now, h.main.batch[0].body.task, h)
    ensures Broker.IsRun(run') && run <= run' && b in Last(run').hosts
    ensures var y, y', h, h' := Last(run), Last(run'), Last(run).hosts[b], Last(run').hosts[b];
      && var id, s := h.main.batch[0].body.task, y.daemon.db;
      && y'.daemon.db == s.(tasks := s.tasks[id := s.tasks[id].(cancelAcked := true)], clock := now)
      && h'.main == Handling(h.main.batch[1..]) && h'.active == h.active && y'.starts == y.starts
      && id in h'.journal && h'.journal[id].state == J.Delivered
  {
    var h := Last(run).hosts[b];
    var m := h.main.batch[0];
    var r := CancelledFirst(m.body.task, m.replyTo.value);
    var h1 := h.(main := Settling(r, Sealing, ToBatch(h.main.batch[1..])));
    assert CancelsUnknown(h, h1) && MainStep(h, h1);
    var run1 := Goes(run, b, h1);
    var run2, h2 := SealsInHand(run1, b);
    var run3, h3 := AcknowledgesIt(run2, b, now);
    var h4;
    run', h4 := ClosesInHand(run3, b);
  }
}
