/** Every step of the whole system keeps its invariant. */
module BrokerRuns {
  import opened Wire
  import opened Ledger
  import opened LedgerRuns
  import opened LedgerInvariant
  import opened LedgerTheorems
  import opened Broker
  import opened BrokerInvariant
  import opened BrokerSteps
  import opened BrokerSafety
  import opened BrokerSecrets
  import J = Journal

  // ---------------------------------------------------------------- the daemon moves on

  ghost predicate Advances(d: Daemon, d': Daemon) {
    Inv(d) && Inv(d') && (d' == d || Next(d, d'))
  }

  lemma AdvanceGrows(d: Daemon, d': Daemon)
    requires Advances(d, d')
    ensures d.db.mail.log <= d'.db.mail.log
  {
    if d' != d { LogGrows(d, d'); }
  }

  lemma ServesAdvances(d: Daemon, now: int, req: Frame, minted: Secret, ok: bool, d': Daemon)
    requires Inv(d) && Serves(d, now, req, minted, ok, d')
    ensures Advances(d, d')
  {
    if Gate(d.db, req, minted).Some? { StepKeepsInv(d, now, Gate(d.db, req, minted).value, d'); }
  }

  lemma OwnTasksStay(log: seq<Message>, log': seq<Message>, b: Session, h: Host)
    requires OwnTasks(log, b, h) && log <= log'
    ensures OwnTasks(log', b, h)
  {
    forall t | LaunchedTo(log, t, b) ensures LaunchedTo(log', t, b) { LaunchedToStays(log, log', t, b); }
  }

  lemma SettledStay(d: Daemon, d': Daemon, h: Host)
    requires Advances(d, d') && ConfirmedSettled(d.db, h)
    ensures ConfirmedSettled(d'.db, h)
  {
    if d' != d {
      forall t | t in h.confirmed ensures MailOf(d'.db.mail.log, t) != [] && Standing(d'.db, t) == 0 {
        StandingFalls(d, d', t);
      }
    }
  }

  lemma DaemonKeepsHost(d: Daemon, d': Daemon, b: Session, h: Host)
    requires Advances(d, d') && HostSound(d, b, h)
    ensures HostSound(d', b, h)
  {
    AdvanceGrows(d, d');
    OwnTasksStay(d.db.mail.log, d'.db.mail.log, b, h);
    SettledStay(d, d', h);
  }

  // ---------------------------------------------------------------- one broker moves on

  /** History is never unwritten, a broker keeps its identity, and a terminal it newly sends was durable before. */
  ghost predicate HistoryGrows(h: Host, h': Host) {
    && h'.id == h.id && h'.secret == h.secret
    && h.put <= h'.put && h.evicted <= h'.evicted && h.durable <= h'.durable && h.wire <= h'.wire
    && (forall req :: req in h'.wire && req !in h.wire ==> WasDurable(h, req))
  }

  predicate WasDurable(h: Host, req: Frame) {
    req.ReportRequest? && IsEnding(req.body) ==> (req.body.task, req.body) in h.durable
  }

  ghost predicate SpentStays(h: Host, h': Host) {
    forall t :: Spent(h, t) ==> Spent(h', t)
  }

  /** A step of the process itself confirms nothing and sends nothing. */
  ghost predicate Inward(h: Host, h': Host) {
    HistoryGrows(h, h') && h'.confirmed == h.confirmed && h'.wire == h.wire
  }

  lemma PutsInward(h: Host, r: J.Record, gone: set<TaskId>, h': Host)
    requires PutsEvicting(h, r, gone, h')
    ensures Inward(h, h') && h'.put == h.put + {r.launch.task} && h'.main == h.main && h'.workers == h.workers
  {
  }

  /** A journal write leaves a spent task spent. */
  lemma PutsSpent(h: Host, r: J.Record, gone: set<TaskId>, h': Host, t: TaskId)
    requires PutsEvicting(h, r, gone, h') && Spent(h, t)
    ensures Spent(h', t)
  {
    assert forall k :: WorkerOn(h', t, k) ==> WorkerOn(h, t, k);
  }

  lemma LaunchNewInward(h: Host, h': Host, log: seq<Message>, b: Session)
    requires HostInv(h) && OwnTasks(log, b, h) && LaunchesNew(h, h')
    ensures Inward(h, h') && OwnTasks(log, b, h') && SpentStays(h, h')
  {
    var r := if h.active.None? then Received(LaunchOf(h.main.batch[0].body))
             else Ended(Received(LaunchOf(h.main.batch[0].body)), FailedBody(h.main.batch[0].body.task, "eyes busy"));
    var h1 := h.(main := Minting(r, ToBatch(h.main.batch[1..])),
                 active := if h.active.None? then Some(r.launch.task) else h.active);
    var gone :| PutsEvicting(h1, r, gone, h');
    PutsInward(h1, r, gone, h');
    assert h.main.batch[0] in Batch(h.main) && OwnMail(log, b, h.main.batch[0]);
    assert forall m :: m in h.main.batch[1..] ==> m in Batch(h.main);
    forall t | Spent(h, t) ensures Spent(h', t) {
      assert TaskInv(h, t);
      assert forall k :: WorkerOn(h1, t, k) ==> WorkerOn(h, t, k);
      PutsSpent(h1, r, gone, h', t);
    }
  }

  lemma HandOverInward(h: Host, h': Host, log: seq<Message>, b: Session)
    requires HostInv(h) && OwnTasks(log, b, h) && HandsOver(h, h')
    ensures Inward(h, h') && OwnTasks(log, b, h') && SpentStays(h, h')
  {
    var gone, h2, k := HandOverParts(h, h');
    var h1, r := h.(main := Handling(h.main.batch)), Promoted(h.main.record);
    PutsInward(h1, r, gone, h2);
    forall t | Spent(h, t) ensures Spent(h', t) {
      assert TaskInv(h, t);
      HandOverSpent(h, gone, h2, k, h', t);
    }
  }

  /** Whoever takes over a task that is spent does not launch it. */
  lemma HandOverSpent(h: Host, gone: set<TaskId>, h2: Host, k: nat, h': Host, t: TaskId)
    requires h.main.Minted? && TaskInv(h, t) && Spent(h, t)
    requires var h1, r := h.(main := Handling(h.main.batch)), Promoted(h.main.record);
      && PutsEvicting(h1, r, gone, h2) && k !in h2.workers && h' == h2.(workers := h2.workers[k := Taker(r)])
    ensures Spent(h', t)
  {
    var h1, r := h.(main := Handling(h.main.batch)), Promoted(h.main.record);
    assert forall j :: WorkerOn(h1, t, j) ==> WorkerOn(h, t, j);
    PutsSpent(h1, r, gone, h2, t);
    assert forall j :: WorkerOn(h', t, j) ==> WorkerOn(h2, t, j) || (j == k && t == r.launch.task);
    if t == r.launch.task { assert MainOn(h, t); }
  }

  lemma MainPutInward(h: Host, h1: Host, r: J.Record, gone: set<TaskId>, h': Host, log: seq<Message>, b: Session)
    requires HostInv(h) && OwnTasks(log, b, h) && h.main.Settling? && r.launch.task == h.main.record.launch.task
    requires h1 == h.(main := h1.main) && PutsEvicting(h1, r, gone, h') && r.state != J.Received
    requires h1.main == Resumed(h.main.next) || h1.main == h.main.(phase := Sending)
    ensures Inward(h, h') && OwnTasks(log, b, h') && SpentStays(h, h')
  {
    PutsInward(h1, r, gone, h');
    forall t | Spent(h, t) ensures Spent(h', t) {
      assert forall k :: WorkerOn(h1, t, k) ==> WorkerOn(h, t, k);
      PutsSpent(h1, r, gone, h', t);
    }
  }

  ghost predicate Quiet(h: Host, h': Host) {
    Crashes(h, h') || Boots(h, h') || Recovers(h, h') || Drops(h, h') || LaunchesKnown(h, h') || CancelsUnknown(h, h')
  }

  /** Steps that write no journal record may add a supervisor, and launch nothing. */
  lemma QuietMoves(h: Host, h': Host)
    requires Quiet(h, h')
    ensures h' == h.(main := h'.main, workers := h'.workers, active := h'.active)
    ensures forall k :: k in h'.workers ==>
      (k in h.workers && h'.workers[k] == h.workers[k]) || h'.workers[k].Supervising?
    ensures forall t :: !Launching(h'.main, t)
  {
  }

  lemma QuietSpent(h: Host, h': Host, t: TaskId)
    requires Spent(h, t) && h'.put == h.put && !Launching(h'.main, t)
    requires forall k :: k in h'.workers ==>
      (k in h.workers && h'.workers[k] == h.workers[k]) || h'.workers[k].Supervising?
    ensures Spent(h', t)
  {
    assert forall k :: WorkerOn(h', t, k) ==> WorkerOn(h, t, k) || h'.workers[k].Supervising?;
  }

  lemma MainQuietInward(h: Host, h': Host)
    requires Quiet(h, h')
    ensures Inward(h, h') && SpentStays(h, h')
  {
    QuietMoves(h, h');
    forall t | Spent(h, t) ensures Spent(h', t) { QuietSpent(h, h', t); }
  }

  lemma MainQuietOwns(h: Host, h': Host, log: seq<Message>, b: Session)
    requires HostInv(h) && OwnTasks(log, b, h)
    requires Crashes(h, h') || Boots(h, h') || Drops(h, h') || LaunchesKnown(h, h') || CancelsUnknown(h, h')
    ensures OwnTasks(log, b, h')
  {
    if h.main.Handling? && h.main.batch != [] {
      assert h.main.batch[0] in Batch(h.main) && OwnMail(log, b, h.main.batch[0]);
      assert forall m :: m in h.main.batch[1..] ==> m in Batch(h.main);
    }
  }

  lemma RecoversOwns(h: Host, h': Host, log: seq<Message>, b: Session)
    requires OwnTasks(log, b, h) && Recovers(h, h')
    requires h.main.todo != [] && h.main.todo[0].state != J.Delivered ==> h.main.todo[0].launch.task in h.put
    ensures OwnTasks(log, b, h')
  {
  }

  /** What recovery takes up is in the journal, and so was journalled. */
  lemma RecoveredWasPut(h: Host)
    requires HostInv(h) && h.main.Recovering? && h.main.todo != []
    ensures h.main.todo[0].state != J.Delivered ==> h.main.todo[0].launch.task in h.put
  {
    assert StillTrue(h, h.main.todo[0]) && TaskInv(h, h.main.todo[0].launch.task);
  }

  lemma MainStepInward(h: Host, h': Host, log: seq<Message>, b: Session)
    requires HostInv(h) && OwnTasks(log, b, h) && MainStep(h, h')
    ensures Inward(h, h') && OwnTasks(log, b, h') && SpentStays(h, h')
  {
    if LaunchesNew(h, h') { LaunchNewInward(h, h', log, b); }
    else if HandsOver(h, h') { HandOverInward(h, h', log, b); }
    else if MainSeals(h, h') {
      var h1 := h.(main := h.main.(phase := Sending));
      var gone :| PutsEvicting(h1, h.main.record, gone, h');
      assert TaskInv(h, h.main.record.launch.task);
      MainPutInward(h, h1, h.main.record, gone, h', log, b);
    } else if MainCloses(h, h') {
      var r, h1 := J.Tombstone(h.main.record.launch.task), h.(main := Resumed(h.main.next));
      var gone :| PutsEvicting(h1, r, gone, h');
      MainPutInward(h, h1, r, gone, h', log, b);
    } else {
      MainQuietInward(h, h');
      if Recovers(h, h') {
        if h.main.todo != [] { RecoveredWasPut(h); }
        RecoversOwns(h, h', log, b);
      } else { MainQuietOwns(h, h', log, b); }
    }
  }

  lemma WorkerPutInward(h: Host, h1: Host, r: J.Record, gone: set<TaskId>, h': Host, log: seq<Message>, b: Session)
    requires OwnTasks(log, b, h) && r.launch.task in h.put && r.state != J.Received
    requires h1 == h.(workers := h1.workers, active := h1.active) && PutsEvicting(h1, r, gone, h')
    requires forall k :: k in h1.workers ==> k in h.workers && TaskOf(h1.workers[k]) == TaskOf(h.workers[k])
    requires forall k :: k in h1.workers && h1.workers[k].Accepting? ==> h.workers[k].Accepting?
    ensures Inward(h, h') && OwnTasks(log, b, h') && SpentStays(h, h')
  {
    PutsInward(h1, r, gone, h');
    forall t | Spent(h, t) ensures Spent(h', t) {
      assert forall k :: WorkerOn(h1, t, k) ==> WorkerOn(h, t, k);
      PutsSpent(h1, r, gone, h', t);
    }
  }

  lemma WorkerStepInward(h: Host, k: nat, h': Host, log: seq<Message>, b: Session)
    requires HostInv(h) && OwnTasks(log, b, h) && WorkerStep(h, k, h')
    ensures Inward(h, h') && OwnTasks(log, b, h') && SpentStays(h, h')
  {
    var r := h.workers[k].record;
    assert TaskInv(h, r.launch.task) && WorkerOn(h, r.launch.task, k);
    if WorkerSeals(h, k, h') {
      var h1 := h.(workers := h.workers[k := h.workers[k].(phase := Sending)]);
      var gone :| PutsEvicting(h1, r, gone, h');
      WorkerPutInward(h, h1, r, gone, h', log, b);
    } else if WorkerCloses(h, k, h') {
      var h1 := Finished(h, k);
      var gone :| PutsEvicting(h1, J.Tombstone(r.launch.task), gone, h');
      WorkerPutInward(h, h1, J.Tombstone(r.launch.task), gone, h', log, b);
    } else {
      WorkerQuietInward(h, k, h', log, b);
    }
  }

  lemma WorkerQuietInward(h: Host, k: nat, h': Host, log: seq<Message>, b: Session)
    requires OwnTasks(log, b, h) && (WorkerAborts(h, k, h') || exists body :: Ends(h, k, body, h'))
    ensures Inward(h, h') && OwnTasks(log, b, h') && SpentStays(h, h')
  {
    assert forall t, j :: WorkerOn(h', t, j) ==>
      WorkerOn(h, t, j) && (h'.workers[j].Accepting? ==> h.workers[j].Accepting?);
  }

  lemma InwardKeeps(d: Daemon, b: Session, h: Host, h': Host)
    requires HostSound(d, b, h) && HostInv(h') && Inward(h, h') && OwnTasks(d.db.mail.log, b, h')
    ensures HostSound(d, b, h')
  {
  }

  lemma LocalKeepsHost(y: System, b: Session, y': System)
    requires b in y.hosts && HostSound(y.daemon, b, y.hosts[b]) && LocalStep(y, b, y')
    ensures HostSound(y.daemon, b, y'.hosts[b]) && Inward(y.hosts[b], y'.hosts[b])
    ensures SpentStays(y.hosts[b], y'.hosts[b])
  {
    var h, h', log := y.hosts[b], y'.hosts[b], y.daemon.db.mail.log;
    if MainStep(h, h') {
      MainStepKeeps(h, h');
      MainStepInward(h, h', log, b);
    } else {
      var k :| WorkerStep(h, k, h');
      WorkerStepKeeps(h, k, h');
      WorkerStepInward(h, k, h', log, b);
    }
    InwardKeeps(y.daemon, b, h, h');
  }

  // ---------------------------------------------------------------- polling

  /** Whatever the redelivery queue hands a broker was launched to it. */
  lemma QueueIsOwn(s: Store, b: Session, state: TaskState, latest: bool, owed: seq<Message>, m: Message)
    requires StoreInv(s) && ReadsQueue(s, b, state, latest, owed) && m in owed
    ensures OwnMail(s.mail.log, b, m)
  {
    if m.task.Some? {
      var id: TaskId, n: nat :| Pending(s, b, state, latest, id, n) && m == s.mail.log[n];
      RowLaunched(s, id);
    }
  }

  lemma PollOwns(y: System, b: Session, y': System)
    requires b in y.hosts && Inv(y.daemon) && OwnTasks(y.daemon.db.mail.log, b, y.hosts[b]) && PollStep(y, b, y')
    ensures OwnTasks(y.daemon.db.mail.log, b, y'.hosts[b])
  {
    var h, h', s := y.hosts[b], y'.hosts[b], y.daemon.db;
    if h.main.Idling? {
      forall m | m in h'.main.owed
        ensures OwnMail(s.mail.log, b, m)
      { QueueIsOwn(s, b, Queued, false, h'.main.owed, m); }
    } else if h'.main.Handling? {
      var cancels :| ReadsQueue(s, b, Cancelled, true, cancels) && h' == h.(main := Handling(h.main.owed + cancels));
      forall m | m in cancels ensures OwnMail(s.mail.log, b, m) { QueueIsOwn(s, b, Cancelled, true, cancels, m); }
    }
  }

  lemma PollKeepsHost(y: System, b: Session, y': System)
    requires b in y.hosts && Inv(y.daemon) && HostSound(y.daemon, b, y.hosts[b]) && PollStep(y, b, y')
    ensures HostSound(y.daemon, b, y'.hosts[b]) && HistoryGrows(y.hosts[b], y'.hosts[b])
    ensures SpentStays(y.hosts[b], y'.hosts[b])
  {
    var h, h' := y.hosts[b], y'.hosts[b];
    PollOwns(y, b, y');
    LoopKeeps(h, h');
    InwardKeeps(y.daemon, b, h, h');
    assert forall t, k :: WorkerOn(h', t, k) <==> WorkerOn(h, t, k);
  }

  // ---------------------------------------------------------------- calls

  /** A broker only ever sends a terminal that is durable. */
  lemma CallsDurable(h: Host, req: Frame)
    requires HostInv(h) && (MainCalls(h, req) || exists k :: WorkerCalls(h, k, req))
    requires req.ReportRequest? && IsEnding(req.body)
    ensures (req.body.task, req.body) in h.durable
  {
    if MainCalls(h, req) {
      assert TaskInv(h, h.main.record.launch.task);
    } else {
      var k :| WorkerCalls(h, k, req);
      assert TaskInv(h, TaskOf(h.workers[k])) && WorkerOn(h, TaskOf(h.workers[k]), k);
    }
  }

  lemma SentKeepsHost(d: Daemon, b: Session, h: Host, req: Frame)
    requires HostSound(d, b, h) && (MainCalls(h, req) || exists k :: WorkerCalls(h, k, req))
    ensures HostSound(d, b, Sent(h, req)) && HistoryGrows(h, Sent(h, req)) && SpentStays(h, Sent(h, req))
  {
    SentKeeps(h, req);
    if req.ReportRequest? && IsEnding(req.body) { CallsDurable(h, req); }
    assert forall t, k :: WorkerOn(Sent(h, req), t, k) <==> WorkerOn(h, t, k);
  }

  /** Confirming a task the ledger has settled, or nothing at all, is sound. */
  lemma AnsweredKeeps(d: Daemon, b: Session, h: Host, h': Host, t: TaskId)
    requires HostSound(d, b, h) && HostInv(h') && OwnTasks(d.db.mail.log, b, h')
    requires h'.id == h.id && h'.secret == h.secret && h'.put == h.put && h'.evicted == h.evicted
    requires h'.durable == h.durable && h'.wire == h.wire
    requires h'.confirmed <= h.confirmed + {t}
    requires h'.confirmed == h.confirmed || (MailOf(d.db.mail.log, t) != [] && Standing(d.db, t) == 0)
    ensures HostSound(d, b, h') && HistoryGrows(h, h')
  {
  }

  lemma SameJournalSpent(h: Host, h': Host)
    requires h'.put == h.put && h'.evicted == h.evicted && h'.journal == h.journal
    requires forall t, k :: WorkerOn(h', t, k) && h'.workers[k].Accepting? ==>
      WorkerOn(h, t, k) && h.workers[k].Accepting?
    requires forall t :: Launching(h'.main, t) ==> Launching(h.main, t)
    ensures SpentStays(h, h')
  {
  }

  /** The daemon before the call knows a granted mint's task as live, so its tombstone cannot be gone. */
  lemma MintedTaskKept(d: Daemon, b: Session, h: Host, now: int, req: Frame, minted: Secret, d': Daemon)
    requires HostSound(d, b, h) && h.main.Minting? && MainCalls(h, req) && Serves(d, now, req, minted, true, d')
    ensures h.main.record.launch.task !in h.evicted
  {
    GrantedMintStands(d, now, req, minted, d');
    assert TaskInv(h, h.main.record.launch.task);
  }

  /** The request goes out and the daemon moves on; the answer has not arrived yet. */
  lemma CallReaches(d: Daemon, b: Session, h: Host, now: int, req: Frame, minted: Secret, ok: bool, d': Daemon)
    requires Inv(d) && HostSound(d, b, h) && (MainCalls(h, req) || exists k :: WorkerCalls(h, k, req))
    requires Serves(d, now, req, minted, ok, d')
    ensures HostSound(d', b, Sent(h, req)) && SpentStays(h, Sent(h, req))
  {
    ServesAdvances(d, now, req, minted, ok, d');
    SentKeepsHost(d, b, h, req);
    DaemonKeepsHost(d, d', b, Sent(h, req));
  }

  lemma MintAnswerKeepsHost(d: Daemon, b: Session, h: Host, ok: bool, minted: Secret, h': Host)
    requires HostSound(d, b, h) && MintAnswered(h, ok, minted, h')
    requires ok ==> h.main.record.launch.task !in h.evicted
    ensures HostSound(d, b, h') && HistoryGrows(h, h') && SpentStays(h, h')
  {
    if ok {
      MintedKeeps(h, minted, h');
    } else {
      assert MintAnswered(h, false, 0, h');
      RefusedKeeps(h, h');
    }
    MintAnswerOwns(d.db.mail.log, b, h, ok, minted, h');
    AnsweredKeeps(d, b, h, h', 0);
    SameJournalSpent(h, h');
  }

  lemma MintAnswerOwns(log: seq<Message>, b: Session, h: Host, ok: bool, minted: Secret, h': Host)
    requires OwnTasks(log, b, h) && MintAnswered(h, ok, minted, h')
    ensures OwnTasks(log, b, h')
  {
    assert Batch(h'.main) == Batch(h.main);
  }

  lemma ReportAnswerKeepsHost(d: Daemon, b: Session, h: Host, ok: bool, h': Host)
    requires HostSound(d, b, h) && h.main.Settling? && h.main.phase == Sending && MainReportAnswered(h, ok, h')
    requires ok ==>
      MailOf(d.db.mail.log, h.main.record.launch.task) != [] && Standing(d.db, h.main.record.launch.task) == 0
    ensures HostSound(d, b, h') && HistoryGrows(h, h') && SpentStays(h, h')
  {
    if ok { ConfirmMainKeeps(h, h'); }
    assert Batch(h'.main) == Batch(h.main);
    AnsweredKeeps(d, b, h, h', h.main.record.launch.task);
    SameJournalSpent(h, h');
  }

  lemma WorkerAnswerKeepsHost(d: Daemon, b: Session, h: Host, k: nat, ok: bool, h': Host)
    requires HostSound(d, b, h) && WorkerAnswered(h, k, ok, h')
    requires h.workers[k].Supervising? ==> h.workers[k].phase == Sending
    requires ok && h.workers[k].Supervising? ==>
               MailOf(d.db.mail.log, TaskOf(h.workers[k])) != [] && Standing(d.db, TaskOf(h.workers[k])) == 0
    ensures HostSound(d, b, h') && HistoryGrows(h, h') && SpentStays(h, h')
  {
    WorkerAnswerKeeps(h, k, ok, h');
    assert h'.main == h.main;
    AnsweredKeeps(d, b, h, h', TaskOf(h.workers[k]));
    SameJournalSpent(h, h');
  }

  lemma MintCallKeepsHost(d: Daemon, b: Session, h: Host, now: int, req: Frame, minted: Secret, ok: bool, d': Daemon,
                          h': Host)
    requires Inv(d) && HostSound(d, b, h) && MainCalls(h, req) && req.MintRequest?
    requires Serves(d, now, req, minted, ok, d') && MintAnswered(Sent(h, req), ok, minted, h')
    ensures HostSound(d', b, h') && HistoryGrows(h, h') && SpentStays(h, h')
  {
    CallReaches(d, b, h, now, req, minted, ok, d');
    if ok { MintedTaskKept(d, b, h, now, req, minted, d'); }
    MintAnswerKeepsHost(d', b, Sent(h, req), ok, minted, h');
  }

  /** The report the poll loop sends is its record's terminal. */
  lemma SettlerCalls(h: Host, req: Frame)
    requires HostInv(h) && MainCalls(h, req) && req.ReportRequest?
    ensures h.main.Settling? && h.main.phase == Sending
    ensures IsEnding(req.body) && req.body.task == h.main.record.launch.task
  {
    assert TaskInv(h, h.main.record.launch.task);
  }

  lemma MainReportKeepsHost(d: Daemon, b: Session, h: Host, now: int, req: Frame, minted: Secret, ok: bool,
                            d': Daemon, h': Host)
    requires Inv(d) && HostSound(d, b, h) && MainCalls(h, req) && req.ReportRequest?
    requires Serves(d, now, req, minted, ok, d') && MainReportAnswered(Sent(h, req), ok, h')
    ensures HostSound(d', b, h') && HistoryGrows(h, h') && SpentStays(h, h')
  {
    CallReaches(d, b, h, now, req, minted, ok, d');
    SettlerCalls(h, req);
    if ok { GrantedReport(d, now, req, minted, d'); }
    ReportAnswerKeepsHost(d', b, Sent(h, req), ok, h');
  }

  /** The frame a supervisor sends is its record's terminal. */
  lemma SupervisorCalls(h: Host, k: nat, req: Frame)
    requires HostInv(h) && WorkerCalls(h, k, req) && h.workers[k].Supervising?
    ensures req.ReportRequest? && IsEnding(req.body) && req.body.task == TaskOf(h.workers[k])
  {
    assert TaskInv(h, TaskOf(h.workers[k])) && WorkerOn(h, TaskOf(h.workers[k]), k);
  }

  lemma WorkerCallKeepsHost(d: Daemon, b: Session, h: Host, k: nat, now: int, req: Frame, ok: bool, d': Daemon,
                            h': Host)
    requires Inv(d) && HostSound(d, b, h) && WorkerCalls(h, k, req)
    requires Serves(d, now, req, 0, ok, d') && WorkerAnswered(Sent(h, req), k, ok, h')
    ensures HostSound(d', b, h') && HistoryGrows(h, h') && SpentStays(h, h')
  {
    CallReaches(d, b, h, now, req, 0, ok, d');
    if ok && h.workers[k].Supervising? {
      SupervisorCalls(h, k, req);
      GrantedReport(d, now, req, 0, d');
    }
    WorkerAnswerKeepsHost(d', b, Sent(h, req), k, ok, h');
  }

  /** A broker that starts a task could still launch it, and now cannot. */
  lemma StartSpends(h: Host, k: nat, req: Frame, h': Host)
    requires HostInv(h) && k in h.workers && h.workers[k].Accepting? && WorkerAnswered(Sent(h, req), k, true, h')
    ensures !Spent(h, TaskOf(h.workers[k])) && Spent(h', TaskOf(h.workers[k]))
  {
    var t := TaskOf(h.workers[k]);
    assert TaskInv(h, t) && WorkerOn(h, t, k);
    assert forall j :: WorkerOn(h', t, j) ==> WorkerOn(h, t, j);
  }

  /** A start: the accept stands at the ledger, and the task was never started before. */
  lemma StartIsFirst(d: Daemon, b: Session, h: Host, k: nat, now: int, req: Frame, d': Daemon, h': Host)
    requires Inv(d) && HostSound(d, b, h) && WorkerCalls(h, k, req) && h.workers[k].Accepting?
    requires Serves(d, now, req, 0, true, d') && WorkerAnswered(Sent(h, req), k, true, h')
    ensures MailOf(d'.db.mail.log, TaskOf(h.workers[k])) == [Launched, AcceptSent]
    ensures TaskOf(h.workers[k]) in d'.db.tasks && d'.db.tasks[TaskOf(h.workers[k])].state == TaskState.Accepted
    ensures !Spent(h, TaskOf(h.workers[k])) && Spent(h', TaskOf(h.workers[k]))
  {
    GrantedReport(d, now, req, 0, d');
    StartSpends(h, k, req, h');
  }

  // ---------------------------------------------------------------- the whole system

  /**
   * An outcome mail written by this step is the sweep's, was durable at some broker, or is for a foreign broker's
   * task.
   */
  ghost predicate Explained(y: System, t: TaskId, body: Body) {
    || body == FailedBody(t, "deadline exceeded")
    || (exists b :: b in y.hosts && (t, body) in y.hosts[b].durable)
    || (forall b :: b in y.hosts ==> !LaunchedTo(y.daemon.db.mail.log, t, b))
  }

  ghost predicate AllExplained(y: System, y': System) {
    forall m: nat, t ::
      |y.daemon.db.mail.log| <= m < |y'.daemon.db.mail.log| && IsOutcome(y'.daemon.db.mail.log[m], t) ==>
      Explained(y, t, y'.daemon.db.mail.log[m].body)
  }

  /** A durable terminal belongs to a task of the broker that holds it. */
  lemma DurableIsOwn(y: System, b: Session, t: TaskId, body: Body)
    requires b in y.hosts && HostSound(y.daemon, b, y.hosts[b]) && (t, body) in y.hosts[b].durable
    ensures LaunchedTo(y.daemon.db.mail.log, t, b)
  {
    assert TaskInv(y.hosts[b], t);
  }

  lemma NewOutcomeDurable(y: System, log': seq<Message>, t: TaskId, b: Session, n: nat, m: nat)
    requires SystemInv(y) && y.daemon.db.mail.log <= log' && n < m < |log'| && |log'| <= |y.daemon.db.mail.log| + 1
    requires m == |y.daemon.db.mail.log| && b in y.hosts && LaunchMail(log', t, b, n) && IsOutcome(log'[m], t)
    requires Explained(y, t, log'[m].body)
    ensures log'[m].body == FailedBody(t, "deadline exceeded") || (t, log'[m].body) in y.hosts[b].durable
  {
    var log, body := y.daemon.db.mail.log, log'[m].body;
    assert LaunchMail(log, t, b, n);
    if body != FailedBody(t, "deadline exceeded") {
      var other :| other in y.hosts && (t, body) in y.hosts[other].durable;
      DurableIsOwn(y, other, t, body);
      LaunchedToOne(y.daemon.db, t, b, other);
    }
  }

  /** A transaction writes at most one message. */
  lemma OneMessage(d: Daemon, d': Daemon)
    requires d' == d || Next(d, d')
    ensures d.db.mail.log <= d'.db.mail.log && |d'.db.mail.log| <= |d.db.mail.log| + 1
  {
    if d' != d {
      var now, op :| Takes(d, now, op, d');
      match op
      case Tasks(o) => var w := TaskOpWrites(d.db, now, o);
      case House(h) => if h.SweepOne? { var w := SweepWrites(d.db, now, d.sweeper.todo[0]); }
      case _ =>
    }
  }

  lemma OutcomesStayDurable(y: System, y': System)
    requires SystemInv(y) && Advances(y.daemon, y'.daemon) && AllExplained(y, y')
    requires y'.hosts.Keys == y.hosts.Keys
    requires forall b :: b in y.hosts ==> y.hosts[b].durable <= y'.hosts[b].durable
    ensures OutcomesDurable(y'.daemon.db.mail.log, y'.hosts)
  {
    var log, log' := y.daemon.db.mail.log, y'.daemon.db.mail.log;
    OneMessage(y.daemon, y'.daemon);
    forall t: TaskId, b, n: nat, m: nat ensures OutcomeDurable(log', y'.hosts, t, b, n, m) {
      if n < m < |log'| && b in y.hosts && LaunchMail(log', t, b, n) && IsOutcome(log'[m], t) {
        if m < |log| {
          assert OutcomeDurable(log, y.hosts, t, b, n, m);
        } else {
          NewOutcomeDurable(y, log', t, b, n, m);
        }
      }
    }
  }

  /** How one step may change the brokers: at most one moves, soundly. */
  ghost predicate HostsMove(y: System, y': System) {
    && y'.hosts.Keys == y.hosts.Keys
    && forall b :: b in y.hosts ==>
         && HostSound(y'.daemon, b, y'.hosts[b])
         && HistoryGrows(y.hosts[b], y'.hosts[b]) && SpentStays(y.hosts[b], y'.hosts[b])
  }

  lemma OtherHostStays(y: System, b: Session, y': System)
    requires SystemInv(y) && Advances(y.daemon, y'.daemon) && b in y.hosts && b in y'.hosts && y'.hosts[b] == y.hosts[b]
    ensures HostSound(y'.daemon, b, y'.hosts[b]) && HistoryGrows(y.hosts[b], y'.hosts[b])
    ensures SpentStays(y.hosts[b], y'.hosts[b])
  {
    assert HostSound(y.daemon, b, y.hosts[b]);
    DaemonKeepsHost(y.daemon, y'.daemon, b, y.hosts[b]);
  }

  lemma HostMoves(y: System, b: Session, h': Host, y': System)
    requires SystemInv(y) && Advances(y.daemon, y'.daemon) && b in y.hosts && y'.hosts == y.hosts[b := h']
    requires HostSound(y'.daemon, b, h') && HistoryGrows(y.hosts[b], h') && SpentStays(y.hosts[b], h')
    ensures HostsMove(y, y')
  {
    forall c | c in y.hosts
      ensures HostSound(y'.daemon, c, y'.hosts[c]) && HistoryGrows(y.hosts[c], y'.hosts[c])
      ensures SpentStays(y.hosts[c], y'.hosts[c])
    {
      if c != b { OtherHostStays(y, c, y'); }
    }
  }

  lemma NoHostMoves(y: System, y': System)
    requires SystemInv(y) && Advances(y.daemon, y'.daemon) && y'.hosts == y.hosts
    ensures HostsMove(y, y')
  {
    forall c | c in y.hosts
      ensures HostSound(y'.daemon, c, y'.hosts[c]) && HistoryGrows(y.hosts[c], y'.hosts[c])
      ensures SpentStays(y.hosts[c], y'.hosts[c])
    {
      OtherHostStays(y, c, y');
    }
  }

  lemma StartsStay(y: System, y': System, b: Session, t: TaskId)
    requires StartSound(y, b, t) && Advances(y.daemon, y'.daemon) && HostsMove(y, y')
    ensures StartSound(y', b, t)
  {
    AdvanceGrows(y.daemon, y'.daemon);
    StoryOnlyGrows(y.daemon.db.mail.log, y'.daemon.db.mail.log, t);
  }

  /** Broker `b` starts `t`, which it could still start, and the ledger holds the task accepted and assigned to it. */
  ghost predicate NewStart(y: System, y': System, b: Session, t: TaskId) {
    && y'.starts == y.starts + [(b, t)] && b in y.hosts && t in y.hosts[b].put && !Spent(y.hosts[b], t)
    && t in y'.daemon.db.tasks && y'.daemon.db.tasks[t].state == TaskState.Accepted
    && y'.daemon.db.tasks[t].launcher.agent == b
  }

  /** What one step of the system does, and keeps. */
  ghost predicate Moves(y: System, y': System) {
    && SystemInv(y') && Advances(y.daemon, y'.daemon) && HostsMove(y, y')
    && (y'.starts == y.starts || exists b, t :: NewStart(y, y', b, t))
  }

  lemma QuietStep(y: System, y': System)
    requires SystemInv(y) && Advances(y.daemon, y'.daemon) && HostsMove(y, y') && AllExplained(y, y')
    requires y'.starts == y.starts
    ensures Moves(y, y')
  {
    forall i | 0 <= i < |y.starts| ensures StartSound(y', y.starts[i].0, y.starts[i].1) {
      StartsStay(y, y', y.starts[i].0, y.starts[i].1);
    }
    OutcomesStayDurable(y, y');
  }

  /** A task this broker has not spent was started by nobody. */
  lemma NotStartedBefore(y: System, b: Session, t: TaskId, i: nat)
    requires SystemInv(y) && b in y.hosts && t in y.hosts[b].put && !Spent(y.hosts[b], t) && i < |y.starts|
    ensures y.starts[i].1 != t
  {
    var (other, u) := y.starts[i];
    assert StartSound(y, other, u);
    if u == t {
      assert HostSound(y.daemon, b, y.hosts[b]) && HostSound(y.daemon, other, y.hosts[other]);
      LaunchedToOne(y.daemon.db, t, b, other);
    }
  }

  /** The starts stay sound when the accept stands and nobody had started the task before. */
  lemma OneMoreStart(y: System, y': System, b: Session, t: TaskId)
    requires StartsSound(y) && y' == y.(starts := y.starts + [(b, t)]) && b in y.hosts && Spent(y.hosts[b], t)
    requires MailOf(y.daemon.db.mail.log, t) == [Launched, AcceptSent]
    requires forall i :: 0 <= i < |y.starts| ==> y.starts[i].1 != t
    ensures StartsSound(y')
  {
    forall i | 0 <= i < |y.starts| ensures StartSound(y', y.starts[i].0, y.starts[i].1) {
      assert StartSound(y, y.starts[i].0, y.starts[i].1);
    }
  }

  lemma StartStep(y: System, y': System, b: Session, t: TaskId)
    requires SystemInv(y) && Advances(y.daemon, y'.daemon) && HostsMove(y, y') && AllExplained(y, y')
    requires NewStart(y, y', b, t) && b in y'.hosts && Spent(y'.hosts[b], t)
    ensures Moves(y, y')
  {
    var y1 := y'.(starts := y.starts);
    QuietStep(y, y1);
    forall i | 0 <= i < |y.starts| ensures y.starts[i].1 != t { NotStartedBefore(y, b, t, i); }
    OneMoreStart(y1, y', b, t);
  }

  // ---------------------------------------------------------------- where new outcomes come from

  lemma EnvExplained(y: System, y': System, now: int, op: Op)
    requires SystemInv(y) && Open(y, op) && Takes(y.daemon, now, op, y'.daemon)
    ensures AllExplained(y, y')
  {
    forall m: nat, t |
      |y.daemon.db.mail.log| <= m < |y'.daemon.db.mail.log| && IsOutcome(y'.daemon.db.mail.log[m], t)
      ensures Explained(y, t, y'.daemon.db.mail.log[m].body)
    {
      OutcomeAppended(y.daemon, now, op, y'.daemon, m, t);
    }
  }

  /** A task whose row names somebody else's broker was launched to none of these. */
  lemma ElsewhereExplained(y: System, t: TaskId, body: Body)
    requires SystemInv(y) && t in y.daemon.db.tasks && y.daemon.db.tasks[t].launcher.agent !in y.hosts
    ensures Explained(y, t, body)
  {
    RowLaunched(y.daemon.db, t);
    forall b | b in y.hosts && LaunchedTo(y.daemon.db.mail.log, t, b) ensures false {
      LaunchedToOne(y.daemon.db, t, b, y.daemon.db.tasks[t].launcher.agent);
    }
  }

  /** An outsider over the relay settles only tasks of other brokers: on these it is refused. */
  lemma OutsideExplained(y: System, y': System, now: int, req: Frame, minted: Secret, ok: bool)
    requires SystemInv(y) && SecretsSound(y) && req.secret !in y.held
    requires Serves(y.daemon, now, req, minted, ok, y'.daemon)
    ensures AllExplained(y, y')
  {
    if Gate(y.daemon.db, req, minted).Some? {
      var op := Gate(y.daemon.db, req, minted).value;
      forall m: nat, t |
        |y.daemon.db.mail.log| <= m < |y'.daemon.db.mail.log| && IsOutcome(y'.daemon.db.mail.log[m], t)
        ensures Explained(y, t, y'.daemon.db.mail.log[m].body)
      {
        OutcomeAppended(y.daemon, now, op, y'.daemon, m, t);
        OutsideReport(y, now, req, minted, t);
        ElsewhereExplained(y, t, y'.daemon.db.mail.log[m].body);
      }
    }
  }

  /** A report that wrote anything was on a task of a broker that is not modelled. */
  lemma OutsideReport(y: System, now: int, req: Frame, minted: Secret, t: TaskId)
    requires SystemInv(y) && SecretsSound(y) && req.secret !in y.held && req.ReportRequest?
    requires Gate(y.daemon.db, req, minted).Some? && req.body.task == t && t in y.daemon.db.tasks
    requires var op := Gate(y.daemon.db, req, minted).value;
      Report(y.daemon.db, now, op.task.actor, op.task.target, op.task.body).0.mail.log != y.daemon.db.mail.log
    ensures y.daemon.db.tasks[t].launcher.agent !in y.hosts
  {
    if y.daemon.db.tasks[t].launcher.agent in y.hosts {
      var row := VerifyRelaySecret(y.daemon.db.agents, req.session, req.secret).value;
      OutsiderReportRefused(y, now, row, req.session, req.secret, req.target.value, req.body);
    }
  }

  /** A frame from a broker can only report what that broker has made durable. */
  lemma ServedExplained(y: System, y': System, b: Session, now: int, req: Frame, minted: Secret, ok: bool)
    requires SystemInv(y) && b in y.hosts && Serves(y.daemon, now, req, minted, ok, y'.daemon)
    requires req.ReportRequest? && IsEnding(req.body) ==> (req.body.task, req.body) in y.hosts[b].durable
    ensures AllExplained(y, y')
  {
    if Gate(y.daemon.db, req, minted).Some? {
      var op := Gate(y.daemon.db, req, minted).value;
      forall m: nat, t |
        |y.daemon.db.mail.log| <= m < |y'.daemon.db.mail.log| && IsOutcome(y'.daemon.db.mail.log[m], t)
        ensures Explained(y, t, y'.daemon.db.mail.log[m].body)
      {
        OutcomeAppended(y.daemon, now, op, y'.daemon, m, t);
      }
    }
  }
}
