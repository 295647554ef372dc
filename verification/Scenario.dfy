/** One run of the whole system in which a task is assigned, polled, minted, accepted and started. */
module Scenario {
  import opened Wire
  import opened Ledger
  import opened LaunchRules
  import opened LedgerRuns
  import opened Broker
  import J = Journal
  import Mail

  const BROKER := Named("broker")
  const ASKER_ROW := Address(Workspace("w"), Named("asker"))
  const BROKER_ROW := Address(Scope.Host("pc"), Named("broker"))
  const CAPS := {Provider("claude"), Chrome}
  const ASKED := Request(Address(Workspace("w"), Named("asker")), "claude", "look", 300, 200)

  const ASKER := Agent(NoKind, Local, Active, 1, 1, None, {}, None)
  const LAUNCHER := Agent(Kind.Launcher, Relay, Active, 1, 1, Some(1), CAPS, None)
  const CHILD := Agent(EyesChild, Relay, Active, 1, 1, Some(2), {}, None)

  const LAUNCH := LaunchBody(0, "claude", "look", ASKER_ROW, 300, 200)
  const LAUNCH_MAIL := Message(
    Scope.Host("pc"), Named("asker"), Some(Workspace("w")), Some(BROKER), LAUNCH, 1, Some(ASKER_ROW), Some(0))
  const ROW := Task(ASKER_ROW, BROKER_ROW, "claude", Queued, false, 300, 1, 1, Progress(0, "", 0, 0), 0)
  const FRAME := J.Launch(0, "claude", "look", Some(ASKER_ROW), 300)
  const CHILD_REF := J.Child(Address(Workspace("w"), Eyes(0)), 2)

  // ---------------------------------------------------------------- the daemon's states

  const EMPTY := Daemon(Store(1, map[], map[], Mail.Store([], {}, map[])), Resting)
  const ASKER_IN := Daemon(Store(1, map[ASKER_ROW := ASKER], map[], Mail.Store([], {}, map[])), Resting)
  const BOTH_IN := Daemon(
    Store(1, map[ASKER_ROW := ASKER, BROKER_ROW := LAUNCHER], map[], Mail.Store([], {}, map[])), Resting)
  const ASSIGNED := Daemon(Store(1, map[ASKER_ROW := ASKER, BROKER_ROW := LAUNCHER], map[0 := ROW],
    Mail.Store([LAUNCH_MAIL], {0}, map[(0, BROKER) := Mail.Receipt(false, false)])), Resting)

  lemma AskerRegisters()
    ensures Takes(EMPTY, 1, Rows(RegisterRow(ASKER_ROW, None)), ASKER_IN)
  {
  }

  lemma BrokerRegisters()
    ensures Takes(ASKER_IN, 1, Rows(RelayRow(BROKER_ROW, CAPS, 1)), BOTH_IN)
  {
    assert forall row :: row in ASKER_IN.db.agents ==> row.agent != BROKER;
    assert FirstRow(ASKER_IN.db.agents, BROKER) == None;
  }

  lemma TaskIsAssigned()
    ensures Takes(BOTH_IN, 1, Tasks(AssignTask(ASKED, 0, Some(BROKER_ROW))), ASSIGNED)
  {
    var s := BOTH_IN.db;
    assert Candidate(s, 1, BROKER_ROW);
    assert forall row :: Candidate(s, 1, row) ==> row == BROKER_ROW;
    assert Provider("claude") in CAPS && Chrome in CAPS;
    assert PickLauncher(s, "claude", Some(BROKER_ROW)) == Picked(BROKER_ROW);
    assert Mail.Deliveries(0, {BROKER}) == map[(0, BROKER) := Mail.Receipt(false, false)];
  }

  const CHILD_ROW := Address(Workspace("w"), Eyes(0))
  const MINTED := Daemon(Store(1, map[ASKER_ROW := ASKER, BROKER_ROW := LAUNCHER, CHILD_ROW := CHILD], map[0 := ROW],
    ASSIGNED.db.mail), Resting)
  const MINT := MintRequest(0, Workspace("w"), BROKER, 1)
  const ACCEPT := ReportRequest(BROKER, 1, Some(ASKER_ROW), AcceptedBody(0, CHILD_ROW))
  const BROKER_ACTOR := Caller(Scope.Host("pc"), Some(BROKER), Relay, BROKER_ROW)

  ghost function Accepted(): Daemon {
    At(MINTED.(db := Report(MINTED.db, 1, BROKER_ACTOR, ASKER_ROW, AcceptedBody(0, CHILD_ROW)).0), 1)
  }

  lemma BrokerIsLetIn(d: Daemon)
    requires d == ASSIGNED || d == MINTED
    ensures FirstRow(d.db.agents, BROKER) == Some(BROKER_ROW)
    ensures VerifyRelaySecret(d.db.agents, BROKER, 1) == Some(BROKER_ROW)
  {
    assert IsRelayRow(d.db.agents, BROKER_ROW);
    assert forall row :: row in d.db.agents && row.agent == BROKER ==> row == BROKER_ROW;
  }

  lemma ChildIsMinted()
    ensures Serves(ASSIGNED, 1, MINT, 2, true, MINTED)
  {
    BrokerIsLetIn(ASSIGNED);
    var s := ASSIGNED.db;
    assert forall row :: row in s.agents ==> row.agent != Eyes(0);
    assert ReissueRefused(s, 0, BROKER, 1).None?;
    assert Reissue(s, 1, 0, BROKER, 1, 2) == MINTED.db.agents;
  }

  lemma AcceptIsTaken()
    ensures Serves(MINTED, 1, ACCEPT, 0, true, Accepted())
  {
    BrokerIsLetIn(MINTED);
    var s := MINTED.db;
    assert RoleOf(s, 0, ROW, BROKER_ACTOR) == RoleLauncher;
    assert Report(s, 1, BROKER_ACTOR, ASKER_ROW, AcceptedBody(0, CHILD_ROW)).1 == Ok(true);
  }

  lemma LaunchIsQueued()
    ensures ReadsQueue(ASSIGNED.db, BROKER, Queued, false, [LAUNCH_MAIL])
    ensures ReadsQueue(ASSIGNED.db, BROKER, Cancelled, true, [])
  {
    BrokerIsLetIn(ASSIGNED);
    var s := ASSIGNED.db;
    assert ToLauncher(s, 0, BROKER_ROW, 0);
    assert Pending(s, BROKER, Queued, false, 0, 0);
  }

  // ---------------------------------------------------------------- the broker's states

  const DOWN := Broker.Host(BROKER, 1, Down, map[], None, map[], {}, {}, {}, {}, {})
  const IDLE := DOWN.(main := Idling)
  const FETCHING := DOWN.(main := Fetching([LAUNCH_MAIL]))
  const HANDLING := DOWN.(main := Handling([LAUNCH_MAIL]))
  const JOURNALLED := DOWN.(main := Minting(Received(FRAME), ToBatch([])), active := Some(0),
                            journal := map[0 := Received(FRAME)], put := {0})
  const WITH_CHILD := Received(FRAME).(child := Some(CHILD_REF))
  const HOLDING_CHILD := JOURNALLED.(main := Broker.Main.Minted(WITH_CHILD, []), wire := {MINT})
  const TAKEN := WITH_CHILD.(state := J.Accepted)
  const ACCEPTING := HOLDING_CHILD.(
    main := Handling([]), workers := map[0 := Accepting(TAKEN)], journal := map[0 := TAKEN])
  const RUNNING := ACCEPTING.(workers := map[0 := Running(TAKEN)], wire := {MINT, ACCEPT})

  /** The broker's secret is 1; once its mint request is on the wire, the child's is 2. */
  function Y(d: Daemon, h: Broker.Host, starts: seq<(Session, TaskId)>): System {
    System.System(d, map[BROKER := h], starts, if MINT in h.wire then {1, 2} else {1})
  }

  lemma LaunchIsValid()
    ensures ValidLaunch(LAUNCH)
  {
    EncodedSmall("look");
    EncodedSmall("claude");
    EncodingGrows("look");
    assert "look"[0] == 'l' && !IsSpace('l');
    DefaultsAreIdentifiers();
  }

  lemma LaunchIsJournalled()
    ensures LaunchesNew(HANDLING, JOURNALLED)
  {
    LaunchIsValid();
    var h := HANDLING.(main := JOURNALLED.main, active := Some(0));
    assert HANDLING.main.batch[1..] == [] && LaunchOf(HANDLING.main.batch[0].body) == FRAME;
    assert J.Without(h.journal, {}, Received(FRAME)) == JOURNALLED.journal;
    assert PutsEvicting(h, Received(FRAME), {}, JOURNALLED);
  }

  lemma TaskIsHandedOver()
    ensures HandsOver(HOLDING_CHILD, ACCEPTING)
  {
    var h := HOLDING_CHILD.(main := Handling([]));
    var h1 := h.(journal := map[0 := TAKEN]);
    assert J.Without(h.journal, {}, TAKEN) == map[0 := TAKEN];
    assert PutsEvicting(h, TAKEN, {}, h1);
    assert 0 !in h1.workers && ACCEPTING == h1.(workers := h1.workers[0 := Accepting(TAKEN)]);
    assert Puts(h, TAKEN, h1) && Spawned(h1, Accepting(TAKEN), ACCEPTING);
  }

  // ---------------------------------------------------------------- the run

  lemma EnvMoves(d: Daemon, op: Op, d': Daemon, h: Broker.Host)
    requires Takes(d, 1, op, d') && Open(Y(d, h, []), op)
    ensures Step(Y(d, h, []), Y(d', h, []))
  {
    assert EnvStep(Y(d, h, []), Y(d', h, []));
  }

  lemma LocalMoves(d: Daemon, h: Broker.Host, h': Broker.Host)
    requires MainStep(h, h') && h'.wire == h.wire
    ensures Step(Y(d, h, []), Y(d, h', []))
  {
    assert LocalStep(Y(d, h, []), BROKER, Y(d, h', []));
    assert HostStep(Y(d, h, []), BROKER, Y(d, h', []));
  }

  lemma PollMoves(h: Broker.Host, h': Broker.Host)
    requires (h == IDLE && h' == FETCHING) || (h == FETCHING && h' == HANDLING)
    ensures Step(Y(ASSIGNED, h, []), Y(ASSIGNED, h', []))
  {
    LaunchIsQueued();
    var none: seq<Message> := [];
    assert [LAUNCH_MAIL] + none == [LAUNCH_MAIL];
    if h == IDLE { assert ReadsLaunches(ASSIGNED.db, BROKER, h, h'); }
    else { assert ReadsCancels(ASSIGNED.db, BROKER, h, none, h'); }
    assert PollStep(Y(ASSIGNED, h, []), BROKER, Y(ASSIGNED, h', []));
    assert HostStep(Y(ASSIGNED, h, []), BROKER, Y(ASSIGNED, h', []));
  }

  lemma MainCallMoves(y: System, b: Session, now: int, req: Frame, minted: Secret, ok: bool, y': System)
    requires MainCallStep(y, b, now, req, minted, ok, y')
    ensures Step(y, y')
  {
    assert HostStep(y, b, y');
  }

  /** A worker whose accept is answered well starts its provider. */
  lemma AcceptingStarts(y: System, b: Session, k: nat, now: int, req: Frame, d: Daemon, h': Broker.Host)
    requires b in y.hosts && WorkerCalls(y.hosts[b], k, req) && y.hosts[b].workers[k].Accepting?
    requires Serves(y.daemon, now, req, 0, true, d) && WorkerAnswered(Sent(y.hosts[b], req), k, true, h')
    ensures Step(y, y.(daemon := d, hosts := y.hosts[b := h'],
                       starts := y.starts + [(b, y.hosts[b].workers[k].record.launch.task)]))
  {
    var y' := y.(daemon := d, hosts := y.hosts[b := h'],
                 starts := y.starts + [(b, y.hosts[b].workers[k].record.launch.task)]);
    assert WorkerCallStep(y, b, k, now, req, true, y');
    assert HostStep(y, b, y');
  }

  lemma MintMoves()
    ensures Step(Y(ASSIGNED, JOURNALLED, []), Y(MINTED, HOLDING_CHILD, []))
  {
    ChildIsMinted();
    MainCallMoves(Y(ASSIGNED, JOURNALLED, []), BROKER, 1, MINT, 2, true, Y(MINTED, HOLDING_CHILD, []));
  }

  lemma WorkerStarts()
    ensures WorkerCalls(ACCEPTING, 0, ACCEPT) && WorkerAnswered(Sent(ACCEPTING, ACCEPT), 0, true, RUNNING)
  {
    assert Sent(ACCEPTING, ACCEPT).wire == {MINT, ACCEPT};
  }

  lemma StartMoves()
    ensures Step(Y(MINTED, ACCEPTING, []), Y(Accepted(), RUNNING, [(BROKER, 0)]))
  {
    AcceptIsTaken();
    WorkerStarts();
    StartStep(MINTED, ACCEPTING, ACCEPT, Accepted(), RUNNING);
  }

  lemma StartStep(d: Daemon, h: Broker.Host, req: Frame, d': Daemon, h': Broker.Host)
    requires WorkerCalls(h, 0, req) && h.workers[0].Accepting? && h.workers[0].record.launch.task == 0
    requires Serves(d, 1, req, 0, true, d') && WorkerAnswered(Sent(h, req), 0, true, h')
    requires MINT in h.wire && MINT in h'.wire
    ensures Step(Y(d, h, []), Y(d', h', [(BROKER, 0)]))
  {
    AcceptingStarts(Y(d, h, []), BROKER, 0, 1, req, d', h');
    StartedIs(d, h, d', h');
  }

  lemma StartedIs(d: Daemon, h: Broker.Host, d': Daemon, h': Broker.Host)
    requires MINT in h.wire && MINT in h'.wire
    ensures var y := Y(d, h, []);
      Y(d', h', [(BROKER, 0)]) == y.(daemon := d', hosts := y.hosts[BROKER := h'], starts := y.starts + [(BROKER, 0)])
  {
    assert Y(d, h, []).hosts[BROKER := h'] == map[BROKER := h'];
    assert Y(d, h, []).starts + [(BROKER, 0)] == [(BROKER, 0)];
  }

  const RECOVERING := DOWN.(main := Recovering([]))

  lemma UntilAssigned()
    ensures Step(Y(EMPTY, DOWN, []), Y(ASKER_IN, DOWN, []))
    ensures Step(Y(ASKER_IN, DOWN, []), Y(BOTH_IN, DOWN, []))
    ensures Step(Y(BOTH_IN, DOWN, []), Y(ASSIGNED, DOWN, []))
  {
    AskerRegisters();
    EnvMoves(EMPTY, Rows(RegisterRow(ASKER_ROW, None)), ASKER_IN, DOWN);
    BrokerRegisters();
    EnvMoves(ASKER_IN, Rows(RelayRow(BROKER_ROW, CAPS, 1)), BOTH_IN, DOWN);
    TaskIsAssigned();
    EnvMoves(BOTH_IN, Tasks(AssignTask(ASKED, 0, Some(BROKER_ROW))), ASSIGNED, DOWN);
  }

  lemma UntilHandled()
    ensures Step(Y(ASSIGNED, DOWN, []), Y(ASSIGNED, RECOVERING, []))
    ensures Step(Y(ASSIGNED, RECOVERING, []), Y(ASSIGNED, IDLE, []))
    ensures Step(Y(ASSIGNED, IDLE, []), Y(ASSIGNED, FETCHING, []))
    ensures Step(Y(ASSIGNED, FETCHING, []), Y(ASSIGNED, HANDLING, []))
  {
    LocalMoves(ASSIGNED, DOWN, RECOVERING);
    LocalMoves(ASSIGNED, RECOVERING, IDLE);
    PollMoves(IDLE, FETCHING);
    PollMoves(FETCHING, HANDLING);
  }

  lemma UntilAccepting()
    ensures Step(Y(ASSIGNED, HANDLING, []), Y(ASSIGNED, JOURNALLED, []))
    ensures Step(Y(MINTED, HOLDING_CHILD, []), Y(MINTED, ACCEPTING, []))
  {
    LaunchIsJournalled();
    LocalMoves(ASSIGNED, HANDLING, JOURNALLED);
    TaskIsHandedOver();
    LocalMoves(MINTED, HOLDING_CHILD, ACCEPTING);
  }

  lemma RunOf(y: System) returns (run: seq<System>)
    requires Start(y)
    ensures Broker.IsRun(run) && run[|run| - 1] == y
  {
    run := [y];
  }

  lemma Longer(run: seq<System>, y: System) returns (run': seq<System>)
    requires Broker.IsRun(run) && Step(run[|run| - 1], y)
    ensures Broker.IsRun(run') && run'[|run'| - 1] == y
  {
    run' := run + [y];
    forall i | 0 <= i < |run'| - 1 ensures Broker.StepAt(run', i) {
      if i < |run| - 1 { assert Broker.StepAt(run, i); }
    }
  }

  lemma IsStart()
    ensures Start(Y(EMPTY, DOWN, []))
  {
  }

  /** The safety theorems are not about an empty set of runs: this one starts a provider. */
  lemma ATaskCanStart() returns (run: seq<System>)
    ensures Broker.IsRun(run) && run != [] && run[|run| - 1].starts == [(BROKER, 0)]
  {
    IsStart();
    UntilAssigned();
    UntilHandled();
    UntilAccepting();
    MintMoves();
    StartMoves();
    run := RunOf(Y(EMPTY, DOWN, []));
    run := Longer(run, Y(ASKER_IN, DOWN, []));
    run := Longer(run, Y(BOTH_IN, DOWN, []));
    run := Longer(run, Y(ASSIGNED, DOWN, []));
    run := Longer(run, Y(ASSIGNED, RECOVERING, []));
    run := Longer(run, Y(ASSIGNED, IDLE, []));
    run := Longer(run, Y(ASSIGNED, FETCHING, []));
    run := Longer(run, Y(ASSIGNED, HANDLING, []));
    run := Longer(run, Y(ASSIGNED, JOURNALLED, []));
    run := Longer(run, Y(MINTED, HOLDING_CHILD, []));
    run := Longer(run, Y(MINTED, ACCEPTING, []));
    run := Longer(run, Y(Accepted(), RUNNING, [(BROKER, 0)]));
  }
}
