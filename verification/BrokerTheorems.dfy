/** What the daemon and its brokers promise together, over every run with lost answers, crashes and replays. */
module BrokerTheorems {
  import opened Wire
  import opened Ledger
  import opened LedgerRuns
  import opened LedgerInvariant
  import opened LedgerTheorems
  import opened Broker
  import opened BrokerInvariant
  import opened BrokerSteps
  import opened BrokerSafety
  import opened BrokerSecrets
  import opened BrokerRuns
  import J = Journal

  // ---------------------------------------------------------------- the invariant holds in every reachable state

  lemma StartInv(y: System)
    requires Start(y)
    ensures SystemInv(y) && SecretsSound(y)
  {
    InitInv(y.daemon);
    forall b | b in y.hosts ensures HostInv(y.hosts[b]) {
      FreshHostInv(b, y.hosts[b]);
    }
  }

  lemma FreshHostInv(b: Session, h: Host)
    requires FreshHost(b, h)
    ensures HostInv(h)
  {
  }

  lemma EnvStepKeeps(y: System, y': System)
    requires SystemInv(y) && SecretsSound(y) && EnvStep(y, y')
    ensures Moves(y, y') && SecretsSound(y')
  {
    var now, op :| Open(y, op) && Takes(y.daemon, now, op, y'.daemon) && y' == y.(daemon := y'.daemon);
    StepKeepsInv(y.daemon, now, op, y'.daemon);
    EnvSecrets(y, now, op, y');
    EnvExplained(y, y', now, op);
    NoHostMoves(y, y');
    QuietStep(y, y');
  }

  lemma OutsideStepKeeps(y: System, y': System)
    requires SystemInv(y) && SecretsSound(y) && OutsideStep(y, y')
    ensures Moves(y, y') && SecretsSound(y')
  {
    var now, req: Frame, minted, ok :|
      req.secret !in y.held && Serves(y.daemon, now, req, minted, ok, y'.daemon) && y' == y.(daemon := y'.daemon);
    ServesAdvances(y.daemon, now, req, minted, ok, y'.daemon);
    OutsideSecrets(y, now, req, minted, ok, y');
    OutsideExplained(y, y', now, req, minted, ok);
    NoHostMoves(y, y');
    QuietStep(y, y');
  }

  lemma NetStepKeeps(y: System, y': System)
    requires SystemInv(y) && SecretsSound(y) && NetStep(y, y')
    ensures Moves(y, y') && SecretsSound(y')
  {
    var now, b, req, minted, ok :| Replays(y, b, now, req, minted, ok, y');
    ServesAdvances(y.daemon, now, req, minted, ok, y'.daemon);
    ServedSecrets(y, now, req, minted, ok, y');
    assert HostSound(y.daemon, b, y.hosts[b]);
    ServedExplained(y, y', b, now, req, minted, ok);
    NoHostMoves(y, y');
    QuietStep(y, y');
  }

  /** A step in which only one broker moves. */
  lemma HostOnlyKeeps(y: System, b: Session, h': Host, y': System)
    requires SystemInv(y) && SecretsSound(y) && b in y.hosts && y' == y.(hosts := y.hosts[b := h'])
    requires HostSound(y.daemon, b, h') && HistoryGrows(y.hosts[b], h') && SpentStays(y.hosts[b], h')
    ensures Moves(y, y') && SecretsSound(y')
  {
    HostMoves(y, b, h', y');
    SameSecrets(y, y');
    QuietStep(y, y');
  }

  lemma SendStepKeeps(y: System, b: Session, req: Frame, y': System)
    requires SystemInv(y) && SecretsSound(y) && SendStep(y, b, req, y')
    ensures Moves(y, y') && SecretsSound(y')
  {
    SentKeepsHost(y.daemon, b, y.hosts[b], req);
    HostOnlyKeeps(y, b, Sent(y.hosts[b], req), y');
  }

  lemma CallExplained(y: System, b: Session, now: int, req: Frame, minted: Secret, ok: bool, y': System)
    requires SystemInv(y) && b in y.hosts && Serves(y.daemon, now, req, minted, ok, y'.daemon)
    requires MainCalls(y.hosts[b], req) || exists k :: WorkerCalls(y.hosts[b], k, req)
    ensures AllExplained(y, y')
  {
    assert HostSound(y.daemon, b, y.hosts[b]);
    if req.ReportRequest? && IsEnding(req.body) { CallsDurable(y.hosts[b], req); }
    ServedExplained(y, y', b, now, req, minted, ok);
  }

  lemma MainCallStepKeeps(y: System, b: Session, now: int, req: Frame, minted: Secret, ok: bool, y': System)
    requires SystemInv(y) && SecretsSound(y) && MainCallStep(y, b, now, req, minted, ok, y')
    ensures Moves(y, y') && SecretsSound(y')
  {
    var h, h' := y.hosts[b], y'.hosts[b];
    assert HostSound(y.daemon, b, h);
    ServesAdvances(y.daemon, now, req, minted, ok, y'.daemon);
    if req.MintRequest? { MintCallKeepsHost(y.daemon, b, h, now, req, minted, ok, y'.daemon, h'); }
    else { MainReportKeepsHost(y.daemon, b, h, now, req, minted, ok, y'.daemon, h'); }
    CallExplained(y, b, now, req, minted, ok, y');
    HostMoves(y, b, h', y');
    ServedSecrets(y, now, req, minted, ok, y');
    QuietStep(y, y');
  }

  lemma WorkerReports(h: Host, k: nat, req: Frame)
    requires WorkerCalls(h, k, req)
    ensures req.ReportRequest?
  {
  }

  lemma WorkerCallStepKeeps(y: System, b: Session, k: nat, now: int, req: Frame, ok: bool, y': System)
    requires SystemInv(y) && SecretsSound(y) && WorkerCallStep(y, b, k, now, req, ok, y')
    ensures Moves(y, y') && SecretsSound(y')
  {
    var h, h' := y.hosts[b], y'.hosts[b];
    assert HostSound(y.daemon, b, h);
    ServesAdvances(y.daemon, now, req, 0, ok, y'.daemon);
    WorkerCallKeepsHost(y.daemon, b, h, k, now, req, ok, y'.daemon, h');
    CallExplained(y, b, now, req, 0, ok, y');
    HostMoves(y, b, h', y');
    WorkerReports(h, k, req);
    ServedSecrets(y, now, req, 0, ok, y');
    if h.workers[k].Accepting? && ok {
      var t := TaskOf(h.workers[k]);
      StartIsFirst(y.daemon, b, h, k, now, req, y'.daemon, h');
      assert TaskInv(h, t) && WorkerOn(h, t, k) && HostSound(y'.daemon, b, h');
      RowLaunched(y'.daemon.db, t);
      LaunchedToOne(y'.daemon.db, t, b, y'.daemon.db.tasks[t].launcher.agent);
      StartStep(y, y', b, t);
    } else {
      QuietStep(y, y');
    }
  }

  lemma StepKeeps(y: System, y': System)
    requires SystemInv(y) && SecretsSound(y) && Step(y, y')
    ensures Moves(y, y') && SecretsSound(y')
  {
    if EnvStep(y, y') { EnvStepKeeps(y, y'); }
    else if OutsideStep(y, y') { OutsideStepKeeps(y, y'); }
    else if NetStep(y, y') { NetStepKeeps(y, y'); }
    else {
      var b :| HostStep(y, b, y');
      HostStepKeeps(y, b, y');
    }
  }

  lemma HostStepKeeps(y: System, b: Session, y': System)
    requires SystemInv(y) && SecretsSound(y) && HostStep(y, b, y')
    ensures Moves(y, y') && SecretsSound(y')
  {
    if LocalStep(y, b, y') {
      LocalKeepsHost(y, b, y');
      HostOnlyKeeps(y, b, y'.hosts[b], y');
    } else if PollStep(y, b, y') {
      PollKeepsHost(y, b, y');
      HostOnlyKeeps(y, b, y'.hosts[b], y');
    } else if req :| SendStep(y, b, req, y') {
      SendStepKeeps(y, b, req, y');
    } else if now, req, minted, ok :| MainCallStep(y, b, now, req, minted, ok, y') {
      MainCallStepKeeps(y, b, now, req, minted, ok, y');
    } else {
      var k, now, req, ok :| WorkerCallStep(y, b, k, now, req, ok, y');
      WorkerCallStepKeeps(y, b, k, now, req, ok, y');
    }
  }

  lemma {:induction false} RunKeeps(run: seq<System>, i: nat)
    requires Broker.IsRun(run) && i < |run|
    ensures SystemInv(run[i]) && SecretsSound(run[i])
  {
    if i == 0 {
      StartInv(run[0]);
    } else {
      RunKeeps(run, i - 1);
      assert Broker.StepAt(run, i - 1);
      StepKeeps(run[i - 1], run[i]);
    }
  }

  lemma RunMoves(run: seq<System>, i: nat)
    requires Broker.IsRun(run) && i + 1 < |run|
    ensures Moves(run[i], run[i + 1])
  {
    RunKeeps(run, i);
    assert Broker.StepAt(run, i);
    StepKeeps(run[i], run[i + 1]);
  }

  // ---------------------------------------------------------------- at-most-once execution

  /**
   * No task's provider is started twice: not by its broker, not by another, not after a crash, a replay or an
   * eviction.
   */
  lemma AtMostOnceExecution(run: seq<System>, n: nat, i: nat, j: nat)
    requires Broker.IsRun(run) && n < |run| && i < |run[n].starts| && j < |run[n].starts|
    requires run[n].starts[i].1 == run[n].starts[j].1
    ensures i == j
  {
    RunKeeps(run, n);
    assert forall a, b :: 0 <= a < b < |run[n].starts| ==> run[n].starts[a].1 != run[n].starts[b].1;
  }

  /** Whoever starts a task is the broker it was launched to, and the ledger holds the accept by then. */
  lemma StartsAreAccepted(run: seq<System>, n: nat, b: Session, t: TaskId)
    requires Broker.IsRun(run) && n < |run| && (b, t) in run[n].starts
    ensures b in run[n].hosts && LaunchedTo(run[n].daemon.db.mail.log, t, b)
    ensures [Launched, AcceptSent] <= MailOf(run[n].daemon.db.mail.log, t)
  {
    RunKeeps(run, n);
    var i :| 0 <= i < |run[n].starts| && run[n].starts[i] == (b, t);
    assert StartSound(run[n], b, t) && HostSound(run[n].daemon, b, run[n].hosts[b]);
  }

  lemma StepGrows(run: seq<System>, i: nat)
    requires Broker.IsRun(run) && i + 1 < |run|
    ensures run[i].daemon.db.mail.log <= run[i + 1].daemon.db.mail.log && run[i].starts <= run[i + 1].starts
  {
    RunMoves(run, i);
    AdvanceGrows(run[i].daemon, run[i + 1].daemon);
  }

  lemma {:induction false} RunGrows(run: seq<System>, i: nat, j: nat)
    requires Broker.IsRun(run) && i <= j < |run|
    ensures run[i].daemon.db.mail.log <= run[j].daemon.db.mail.log && run[i].starts <= run[j].starts
  {
    if i < j {
      RunGrows(run, i, j - 1);
      StepGrows(run, j - 1);
    }
  }

  lemma PrefixesAgree<T>(a: seq<T>, b: seq<T>, c: seq<T>)
    requires a <= c && b <= c && |a| == |b|
    ensures a == b
  {
  }

  /** A task cancelled before its accept is never started, in any interleaving, before or after. */
  lemma NoStartAfterEarlyCancel(run: seq<System>, i: nat, j: nat, b: Session, t: TaskId)
    requires Broker.IsRun(run) && i < |run| && j < |run|
    requires [Launched, CancelSent] <= MailOf(run[i].daemon.db.mail.log, t)
    ensures (b, t) !in run[j].starts
  {
    if (b, t) in run[j].starts {
      var k := if i < j then j else i;
      RunGrows(run, i, k);
      RunGrows(run, j, k);
      StartsAreAccepted(run, j, b, t);
      StoryOnlyGrows(run[i].daemon.db.mail.log, run[k].daemon.db.mail.log, t);
      StoryOnlyGrows(run[j].daemon.db.mail.log, run[k].daemon.db.mail.log, t);
      PrefixesAgree([Launched, CancelSent], [Launched, AcceptSent], MailOf(run[k].daemon.db.mail.log, t));
    }
  }

  /** In the very state that first records a start, the ledger holds the task accepted, by that broker. */
  lemma AcceptPrecedesStart(run: seq<System>, i: nat, b: Session, t: TaskId)
    requires Broker.IsRun(run) && i + 1 < |run| && (b, t) !in run[i].starts && (b, t) in run[i + 1].starts
    ensures run[i + 1].starts == run[i].starts + [(b, t)]
    ensures t in run[i + 1].daemon.db.tasks && run[i + 1].daemon.db.tasks[t].state == TaskState.Accepted
    ensures run[i + 1].daemon.db.tasks[t].launcher.agent == b
  {
    RunMoves(run, i);
    NewStartIs(run[i], run[i + 1], b, t);
  }

  lemma NewStartIs(y: System, y': System, b: Session, t: TaskId)
    requires y'.starts == y.starts || exists c, u :: NewStart(y, y', c, u)
    requires (b, t) !in y.starts && (b, t) in y'.starts
    ensures NewStart(y, y', b, t)
  {
    var c, u :| NewStart(y, y', c, u);
  }

  // ---------------------------------------------------------------- write-ahead terminals

  /** A terminal frame goes out only if its body was durable before that step; and what was sent stays on record. */
  lemma TerminalsAreWrittenAhead(run: seq<System>, i: nat, b: Session, req: Frame)
    requires Broker.IsRun(run) && i + 1 < |run| && b in run[i].hosts && b in run[i + 1].hosts
    requires req !in run[i].hosts[b].wire && req in run[i + 1].hosts[b].wire
    requires req.ReportRequest? && IsEnding(req.body)
    ensures (req.body.task, req.body) in run[i].hosts[b].durable
    ensures (req.body.task, req.body) in run[i + 1].hosts[b].durable
  {
    RunMoves(run, i);
    assert HistoryGrows(run[i].hosts[b], run[i + 1].hosts[b]) && WasDurable(run[i].hosts[b], req);
  }

  /**
   * Until its tombstone is evicted, all terminal frames of a task carry one body, across retries,
   * duplicate launches and restarts, and the journal still says so.
   */
  lemma OneTerminalBody(run: seq<System>, i: nat, b: Session, t: TaskId, x: Body, z: Body)
    requires Broker.IsRun(run) && i < |run| && b in run[i].hosts && t !in run[i].hosts[b].evicted
    requires (t, x) in run[i].hosts[b].durable && (t, z) in run[i].hosts[b].durable
    ensures x == z
    ensures var h := run[i].hosts[b];
      Journalled(h, t, J.Delivered) || (Journalled(h, t, J.Terminal) && h.journal[t].terminal == Some(x))
  {
    RunKeeps(run, i);
    var h := run[i].hosts[b];
    assert HostSound(run[i].daemon, b, h);
    assert TaskInv(h, t);
    assert Claimed(h, t, x) && Claimed(h, t, z);
    if Journalled(h, t, J.Terminal) { assert Claimed(h, t, h.journal[t].terminal.value); }
  }

  /** An outcome the requester reads is the sweep's own, or was durable at the broker the task was launched to. */
  lemma OutcomesWereDurable(run: seq<System>, i: nat, b: Session, t: TaskId, n: nat, m: nat)
    requires Broker.IsRun(run) && i < |run| && b in run[i].hosts
    requires LaunchMail(run[i].daemon.db.mail.log, t, b, n)
    requires m < |run[i].daemon.db.mail.log| && IsOutcome(run[i].daemon.db.mail.log[m], t)
    ensures var body := run[i].daemon.db.mail.log[m].body;
      body == FailedBody(t, "deadline exceeded") || (t, body) in run[i].hosts[b].durable
  {
    RunKeeps(run, i);
    var log := run[i].daemon.db.mail.log;
    LaunchComesFirst(run[i].daemon.db, t, n, m);
    assert OutcomeDurable(log, run[i].hosts, t, b, n, m);
  }

  lemma LaunchPlace(log: seq<Message>, t: TaskId, n: nat)
    requires Story(MailOf(log, t)) && Marked(log, t, n)
    ensures Place(log, t, n) == 0 <==> log[n].body.LaunchBody?
  {
    MarkAtPlace(log, t, n);
    StoriesAreOnce(MailOf(log, t));
    assert forall k :: 0 < k < |MailOf(log, t)| ==> MailOf(log, t)[k] != Launched;
  }

  lemma LaunchComesFirst(s: Store, t: TaskId, n: nat, m: nat)
    requires StoriesFit(s) && Marked(s.mail.log, t, n) && s.mail.log[n].body.LaunchBody?
    requires Marked(s.mail.log, t, m) && !s.mail.log[m].body.LaunchBody?
    ensures n < m
  {
    MarkAtPlace(s.mail.log, t, n);
    LaunchPlace(s.mail.log, t, n);
    if m < n { PlacesClimb(s.mail.log, t, m, n); }
  }

  // ---------------------------------------------------------------- one provider at a time

  /** A broker never has two tasks accepting or running, and `active` names the one it has. */
  lemma OneProviderAtATime(run: seq<System>, i: nat, b: Session, j: nat, k: nat)
    requires Broker.IsRun(run) && i < |run| && b in run[i].hosts
    requires Holding(run[i].hosts[b], j) && Holding(run[i].hosts[b], k)
    ensures j == k && run[i].hosts[b].active == Some(TaskOf(run[i].hosts[b].workers[k]))
  {
    RunKeeps(run, i);
    assert HostSound(run[i].daemon, b, run[i].hosts[b]);
  }

  /** A tombstone the daemon could still be asked about is safe to lose: its task is settled for good. */
  lemma EvictedIsSettled(run: seq<System>, i: nat, j: nat, b: Session, t: TaskId)
    requires Broker.IsRun(run) && i <= j < |run| && b in run[i].hosts && t in run[i].hosts[b].evicted
    ensures Standing(run[j].daemon.db, t) == 0
  {
    RunKeeps(run, i);
    RunKeepsEvicted(run, i, j, b, t);
    RunKeeps(run, j);
    var h := run[j].hosts[b];
    assert HostSound(run[j].daemon, b, h) && TaskInv(h, t);
  }

  /** So the child mint, which alone could lead to another start, is refused from then on. */
  lemma EvictedMintRefused(run: seq<System>, i: nat, j: nat, b: Session, t: TaskId, launcher: Session, secret: Secret)
    requires Broker.IsRun(run) && i <= j < |run| && b in run[i].hosts && t in run[i].hosts[b].evicted
    ensures ReissueRefused(run[j].daemon.db, t, launcher, secret).Some?
  {
    EvictedIsSettled(run, i, j, b, t);
  }

  predicate EvictedAt(y: System, b: Session, t: TaskId) {
    b in y.hosts && t in y.hosts[b].evicted
  }

  lemma MovesKeepEvicted(y: System, y': System, b: Session, t: TaskId)
    requires HostsMove(y, y') && EvictedAt(y, b, t)
    ensures EvictedAt(y', b, t)
  {
    assert HistoryGrows(y.hosts[b], y'.hosts[b]);
  }

  lemma RunKeepsEvictedOnce(run: seq<System>, i: nat, b: Session, t: TaskId)
    requires Broker.IsRun(run) && i + 1 < |run| && EvictedAt(run[i], b, t)
    ensures EvictedAt(run[i + 1], b, t)
  {
    RunMoves(run, i);
    MovesKeepEvicted(run[i], run[i + 1], b, t);
  }

  lemma {:induction false} RunKeepsEvicted(run: seq<System>, i: nat, j: nat, b: Session, t: TaskId)
    requires Broker.IsRun(run) && i <= j < |run| && EvictedAt(run[i], b, t)
    ensures EvictedAt(run[j], b, t)
  {
    if i < j {
      RunKeepsEvicted(run, i, j - 1, b, t);
      RunKeepsEvictedOnce(run, j - 1, b, t);
    }
  }

  // ---------------------------------------------------------------- the journal is the journal

  /** What FileJournal.Put promises on success is exactly a journal step of the broker. */
  lemma PutIsAStep(seal: J.Sealer, limit: nat, h: Host, r: J.Record, evicted: set<TaskId>) returns (h': Host)
    requires J.ValidRecord(r.launch.task, J.Stored(r))
    requires J.Shortest(seal, limit, h.journal, J.Stored(r), evicted)
    ensures Puts(h, r, h') && h'.journal == J.Without(h.journal, evicted, J.Stored(r))
  {
    h' := h.(journal := J.Without(h.journal, evicted, J.Stored(r)),
             put := h.put + {r.launch.task},
             evicted := h.evicted + evicted,
             durable := if r.state == J.Terminal then h.durable + {(r.launch.task, r.terminal.value)} else h.durable);
    assert PutsEvicting(h, r, evicted, h');
  }
}
