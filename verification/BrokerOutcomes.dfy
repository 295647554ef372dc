/** What becomes of a broker's terminals and restarts, over every run of the whole system. */
module BrokerOutcomes {
  import opened Wire
  import opened Ledger
  import opened LedgerRuns
  import opened LedgerInvariant
  import opened LedgerTheorems
  import opened Broker
  import opened BrokerInvariant
  import opened BrokerSafety
  import opened BrokerRuns
  import opened BrokerTheorems
  import J = Journal

  // ---------------------------------------------------------------- one terminal frame

  predicate TerminalFrame(h: Host, req: Frame, t: TaskId) {
    req in h.wire && req.ReportRequest? && IsEnding(req.body) && req.body.task == t
  }

  /** All terminal frames a broker ever sent for a task, until its tombstone is evicted, carry one body. */
  lemma OneTerminalFrame(run: seq<System>, i: nat, b: Session, t: TaskId, x: Frame, z: Frame)
    requires Broker.IsRun(run) && i < |run| && b in run[i].hosts && t !in run[i].hosts[b].evicted
    requires TerminalFrame(run[i].hosts[b], x, t) && TerminalFrame(run[i].hosts[b], z, t)
    ensures x.body == z.body && (t, x.body) in run[i].hosts[b].durable
  {
    RunKeeps(run, i);
    assert HostSound(run[i].daemon, b, run[i].hosts[b]);
    OneTerminalBody(run, i, b, t, x.body, z.body);
  }

  // ---------------------------------------------------------------- a restart runs nothing

  predicate Started(y: System, b: Session, t: TaskId) { (b, t) in y.starts }

  ghost predicate SpentAt(y: System, b: Session, t: TaskId) {
    b in y.hosts && Spent(y.hosts[b], t)
  }

  lemma SpentStartsNothing(y: System, y': System, b: Session, t: TaskId)
    requires SpentAt(y, b, t) && (y'.starts == y.starts || exists c, u: TaskId :: NewStart(y, y', c, u))
    ensures Started(y', b, t) ==> Started(y, b, t)
  {
    if y'.starts != y.starts {
      var c, u: TaskId :| NewStart(y, y', c, u);
      assert (c, u) != (b, t);
    }
  }

  lemma SpentMoves(y: System, y': System, b: Session, t: TaskId)
    requires HostsMove(y, y') && SpentAt(y, b, t)
    ensures SpentAt(y', b, t)
  {
    assert SpentStays(y.hosts[b], y'.hosts[b]);
  }

  lemma RunSpentStartsNothing(run: seq<System>, i: nat, b: Session, t: TaskId)
    requires Broker.IsRun(run) && i + 1 < |run| && SpentAt(run[i], b, t)
    ensures SpentAt(run[i + 1], b, t) && (Started(run[i + 1], b, t) ==> Started(run[i], b, t))
  {
    RunMoves(run, i);
    SpentMoves(run[i], run[i + 1], b, t);
    SpentStartsNothing(run[i], run[i + 1], b, t);
  }

  lemma {:induction false} SpentForGood(run: seq<System>, i: nat, j: nat, b: Session, t: TaskId)
    requires Broker.IsRun(run) && i <= j < |run| && SpentAt(run[i], b, t)
    ensures SpentAt(run[j], b, t) && (Started(run[j], b, t) ==> Started(run[i], b, t))
  {
    if i < j {
      SpentForGood(run, i, j - 1, b, t);
      RunSpentStartsNothing(run, j - 1, b, t);
    }
  }

  /** Whatever a broker had journalled when it went down, it never starts afterwards. */
  lemma RestartRunsNothing(run: seq<System>, i: nat, j: nat, b: Session, t: TaskId)
    requires Broker.IsRun(run) && i <= j < |run| && b in run[i].hosts
    requires run[i].hosts[b].main.Down? && t in run[i].hosts[b].put
    ensures Started(run[j], b, t) ==> Started(run[i], b, t)
  {
    RunKeeps(run, i);
    assert HostSound(run[i].daemon, b, run[i].hosts[b]);
    assert RecoverySound(run[i].hosts[b]);
    SpentForGood(run, i, j, b, t);
  }

  // ---------------------------------------------------------------- a result that came too late

  /** A broker confirms a task only on the daemon's own answer to a durable terminal of that task. */
  lemma ConfirmedBy(y: System, y': System, b: Session, t: TaskId) returns (now: int, req: Frame, minted: Secret)
    requires SystemInv(y) && Step(y, y') && b in y.hosts && b in y'.hosts
    requires t in y'.hosts[b].confirmed && t !in y.hosts[b].confirmed
    ensures req.ReportRequest? && IsEnding(req.body) && req.body.task == t && (t, req.body) in y.hosts[b].durable
    ensures Serves(y.daemon, now, req, minted, true, y'.daemon)
  {
    assert y'.hosts[b] != y.hosts[b];
    OnlyItMoves(y, y', b);
    now, req, minted := ConfirmedByHost(y, b, t, y');
  }

  /** A step that changes a broker is that broker's own. */
  lemma OnlyItMoves(y: System, y': System, b: Session)
    requires Step(y, y') && b in y.hosts && b in y'.hosts && y'.hosts[b] != y.hosts[b]
    ensures HostStep(y, b, y')
  {
    var c :| HostStep(y, c, y');
    HostMovesAlone(y, c, y');
  }

  lemma HostMovesAlone(y: System, c: Session, y': System)
    requires HostStep(y, c, y')
    ensures forall b :: b in y.hosts && b != c ==> b in y'.hosts && y'.hosts[b] == y.hosts[b]
  {
  }

  lemma ConfirmedByHost(y: System, b: Session, t: TaskId, y': System) returns (now: int, req: Frame, minted: Secret)
    requires SystemInv(y) && HostStep(y, b, y') && b in y.hosts && b in y'.hosts
    requires t in y'.hosts[b].confirmed && t !in y.hosts[b].confirmed
    ensures req.ReportRequest? && IsEnding(req.body) && req.body.task == t && (t, req.body) in y.hosts[b].durable
    ensures Serves(y.daemon, now, req, minted, true, y'.daemon)
  {
    assert HostSound(y.daemon, b, y.hosts[b]);
    if LocalStep(y, b, y') { LocalKeepsHost(y, b, y'); }
    if n, r, m, ok :| MainCallStep(y, b, n, r, m, ok, y') {
      now, req, minted := n, r, m;
      ConfirmedByMain(y.hosts[b], r, ok, m, y'.hosts[b], t);
    } else {
      var k, n, r, ok :| WorkerCallStep(y, b, k, n, r, ok, y');
      now, req, minted := n, r, 0;
      ConfirmedByWorker(y.hosts[b], k, r, ok, y'.hosts[b], t);
    }
  }

  lemma ConfirmedByMain(h: Host, req: Frame, ok: bool, minted: Secret, h': Host, t: TaskId)
    requires HostInv(h) && MainCalls(h, req)
    requires if req.MintRequest? then MintAnswered(Sent(h, req), ok, minted, h')
             else MainReportAnswered(Sent(h, req), ok, h')
    requires t in h'.confirmed && t !in h.confirmed
    ensures ok && req.ReportRequest? && IsEnding(req.body) && req.body.task == t && (t, req.body) in h.durable
  {
    if req.ReportRequest? {
      SettlerCalls(h, req);
      CallsDurable(h, req);
    }
  }

  lemma ConfirmedByWorker(h: Host, k: nat, req: Frame, ok: bool, h': Host, t: TaskId)
    requires HostInv(h) && WorkerCalls(h, k, req) && WorkerAnswered(Sent(h, req), k, ok, h')
    requires t in h'.confirmed && t !in h.confirmed
    ensures ok && req.ReportRequest? && IsEnding(req.body) && req.body.task == t && (t, req.body) in h.durable
  {
    if h.workers[k].Supervising? {
      SupervisorCalls(h, k, req);
      CallsDurable(h, req);
    }
  }

  /** The ledger knew the task, and holds it failed or no longer holds it. */
  ghost predicate FailedForGood(s: Store, t: TaskId) {
    MailOf(s.mail.log, t) != [] && (t in s.tasks ==> s.tasks[t].state == TaskState.Failed)
  }

  lemma FailedStays(d: Daemon, d': Daemon, t: TaskId)
    requires Advances(d, d') && FailedForGood(d.db, t)
    ensures FailedForGood(d'.db, t)
  {
    if d' != d { StandingFalls(d, d', t); }
  }

  /** Nobody who reports such a result over the relay is answered well. */
  lemma ResultNotConfirmed(d: Daemon, now: int, req: Frame, minted: Secret, d': Daemon)
    requires req.ReportRequest? && req.body.ResultBody? && FailedForGood(d.db, req.body.task)
    ensures !Serves(d, now, req, minted, true, d')
  {
    var op := Gate(d.db, req, minted);
    if op.Some? { FailedTakesNoResult(d.db, now, op.value.task.actor, op.value.task.target, req.body); }
  }

  /** A broker holds a result it has made durable, and the daemon has not confirmed it. */
  predicate HoldsResult(y: System, b: Session, t: TaskId, body: Body) {
    b in y.hosts && body.ResultBody? && body.task == t && (t, body) in y.hosts[b].durable && t !in y.hosts[b].confirmed
  }

  /** Then the journal says so: the record is terminal, with that very result. */
  lemma HeldResultIsJournalled(run: seq<System>, i: nat, b: Session, t: TaskId, body: Body)
    requires Broker.IsRun(run) && i < |run| && HoldsResult(run[i], b, t, body)
    ensures Journalled(run[i].hosts[b], t, J.Terminal) && run[i].hosts[b].journal[t].terminal == Some(body)
  {
    RunKeeps(run, i);
    assert HostSound(run[i].daemon, b, run[i].hosts[b]) && TaskInv(run[i].hosts[b], t);
    OneTerminalBody(run, i, b, t, body, body);
  }

  lemma UnconfirmedIsKept(y: System, b: Session, t: TaskId)
    requires SystemInv(y) && b in y.hosts && t !in y.hosts[b].confirmed
    ensures t !in y.hosts[b].evicted
  {
    assert HostSound(y.daemon, b, y.hosts[b]);
    assert TaskInv(y.hosts[b], t);
  }

  lemma LateResultStep(run: seq<System>, i: nat, b: Session, t: TaskId, body: Body)
    requires Broker.IsRun(run) && i + 1 < |run|
    requires HoldsResult(run[i], b, t, body) && FailedForGood(run[i].daemon.db, t)
    ensures HoldsResult(run[i + 1], b, t, body) && FailedForGood(run[i + 1].daemon.db, t)
  {
    RunKeeps(run, i);
    RunMoves(run, i);
    FailedStays(run[i].daemon, run[i + 1].daemon, t);
    assert HistoryGrows(run[i].hosts[b], run[i + 1].hosts[b]);
    if t in run[i + 1].hosts[b].confirmed { LateResultNeverConfirmed(run, i, b, t, body); }
  }

  lemma LateResultNeverConfirmed(run: seq<System>, i: nat, b: Session, t: TaskId, body: Body)
    requires Broker.IsRun(run) && i + 1 < |run| && SystemInv(run[i]) && b in run[i + 1].hosts
    requires HoldsResult(run[i], b, t, body) && FailedForGood(run[i].daemon.db, t)
    ensures t !in run[i + 1].hosts[b].confirmed
  {
    if t in run[i + 1].hosts[b].confirmed {
      assert Broker.StepAt(run, i);
      var now, req, minted := ConfirmedBy(run[i], run[i + 1], b, t);
      UnconfirmedIsKept(run[i], b, t);
      OneTerminalBody(run, i, b, t, body, req.body);
      ResultNotConfirmed(run[i].daemon, now, req, minted, run[i + 1].daemon);
    }
  }

  /**
   * A result whose task the ledger has already failed is never delivered: in every later state the broker
   * has no confirmation of it and its journal still holds it as a terminal to be sent, and whoever reports
   * it is refused.
   */
  lemma {:induction false} LateResultIsStuck(run: seq<System>, i: nat, j: nat, b: Session, t: TaskId, body: Body,
                                             now: int, a: Actor, target: Address)
    requires Broker.IsRun(run) && i <= j < |run|
    requires HoldsResult(run[i], b, t, body) && FailedForGood(run[i].daemon.db, t)
    ensures HoldsResult(run[j], b, t, body) && FailedForGood(run[j].daemon.db, t)
    ensures Journalled(run[j].hosts[b], t, J.Terminal) && run[j].hosts[b].journal[t].terminal == Some(body)
    ensures Report(run[j].daemon.db, now, a, target, body).1.Refused?
  {
    if i < j {
      LateResultIsStuck(run, i, j - 1, b, t, body, now, a, target);
      LateResultStep(run, j - 1, b, t, body);
    }
    HeldResultIsJournalled(run, j, b, t, body);
    FailedTakesNoResult(run[j].daemon.db, now, a, target, body);
  }
}
