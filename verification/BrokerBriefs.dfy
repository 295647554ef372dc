/** A broker works on what was asked: what it holds of a task is what the task's launch said. */
module BrokerBriefs {
  import opened Wire
  import opened Ledger
  import opened LedgerRuns
  import opened LedgerInvariant
  import opened LedgerTheorems
  import opened Broker
  import opened BrokerInvariant
  import opened BrokerSafety
  import opened BrokerRuns
  import opened BrokerTheorems
  import opened BrokerOutcomes
  import opened Envelopes
  import R = LedgerRights
  import J = Journal

  /** The records recovery has still to come to. */
  function Todo(m: Main): seq<J.Record> {
    match m
    case Recovering(todo) => todo
    case Minting(_, ToRecovery(todo)) => todo
    case Settling(_, _, ToRecovery(todo)) => todo
    case _ => []
  }

  predicate InProgress(r: J.Record) { r.state == J.Received || r.state == J.Accepted }

  predicate LaunchAt(log: seq<Message>, t: TaskId, n: nat) {
    n < |log| && log[n].task == Some(t) && log[n].body.LaunchBody?
  }

  /** A record says what launch `n` of its task said: everything until it ends, and always where to answer. */
  predicate Grounds(log: seq<Message>, r: J.Record, n: nat) {
    && LaunchAt(log, r.launch.task, n) && r.launch.replyTo == Some(log[n].body.replyTo)
    && (InProgress(r) ==> Records(r.launch, log[n].body))
  }

  ghost predicate Grounded(log: seq<Message>, r: J.Record) {
    r.state != J.Delivered ==> exists n: nat :: Grounds(log, r, n)
  }

  /** Mail about a task is its launch, or says where to answer as its launch did. */
  predicate Repeats(log: seq<Message>, m: Message, n: nat) {
    && m.task.Some? && LaunchAt(log, m.task.value, n)
    && (m.body.LaunchBody? ==> m == log[n]) && (m.body.CancelBody? ==> m.replyTo == Some(log[n].body.replyTo))
  }

  ghost predicate Known(log: seq<Message>, m: Message) {
    m.task.Some? ==> exists n: nat :: Repeats(log, m, n)
  }

  /** Everything a broker works from. */
  ghost predicate Briefed(log: seq<Message>, h: Host) {
    && (forall t :: t in h.journal ==> Grounded(log, h.journal[t]))
    && (InHand(h.main).Some? ==> Grounded(log, InHand(h.main).value) && InHand(h.main).value.state != J.Delivered)
    && (forall r :: r in Todo(h.main) ==> Grounded(log, r))
    && (forall k :: k in h.workers ==> Grounded(log, h.workers[k].record) && h.workers[k].record.state != J.Delivered)
    && (forall m :: m in Batch(h.main) ==> Known(log, m))
  }

  /** A record that goes on with the same launch, in progress only if it was. */
  lemma StaysGrounded(log: seq<Message>, r: J.Record, r': J.Record)
    requires Grounded(log, r) && r.state != J.Delivered && r'.launch == r.launch && (InProgress(r') ==> InProgress(r))
    ensures Grounded(log, r')
  {
    var n: nat :| Grounds(log, r, n);
    assert Grounds(log, r', n);
  }

  lemma LaunchGrounds(log: seq<Message>, m: Message, r: J.Record)
    requires Known(log, m) && GoodLaunch(m) && r.launch == LaunchOf(m.body)
    ensures Grounded(log, r)
  {
    var n: nat :| Repeats(log, m, n);
    assert Grounds(log, r, n);
  }

  lemma CancelGrounds(log: seq<Message>, m: Message)
    requires Known(log, m) && GoodCancel(m)
    ensures Grounded(log, CancelledFirst(m.body.task, m.replyTo.value))
  {
    var n: nat :| Repeats(log, m, n);
    assert Grounds(log, CancelledFirst(m.body.task, m.replyTo.value), n);
  }

  // ---------------------------------------------------------------- every step of a broker

  lemma PutBriefed(log: seq<Message>, h: Host, r: J.Record, h': Host)
    requires Briefed(log, h) && Puts(h, r, h') && Grounded(log, r)
    ensures Briefed(log, h')
  {
    var gone :| PutsEvicting(h, r, gone, h');
  }

  lemma RestKnown(log: seq<Message>, batch: seq<Message>)
    requires batch != [] && forall m :: m in batch ==> Known(log, m)
    ensures Known(log, batch[0]) && forall m :: m in batch[1..] ==> Known(log, m)
  {
    assert batch[0] in batch && forall m :: m in batch[1..] ==> m in batch;
  }

  /** A launch is journalled, whatever becomes of it, with the poll loop asking for its child. */
  lemma TakenBriefed(log: seq<Message>, h: Host, r: J.Record, active: Option<TaskId>, h': Host)
    requires Briefed(log, h) && h.main.Handling? && h.main.batch != [] && Grounded(log, r) && r.state != J.Delivered
    requires Puts(h.(main := Minting(r, ToBatch(h.main.batch[1..])), active := active), r, h')
    ensures Briefed(log, h')
  {
    RestKnown(log, h.main.batch);
    PutBriefed(log, h.(main := Minting(r, ToBatch(h.main.batch[1..])), active := active), r, h');
  }

  lemma LaunchNewBriefed(log: seq<Message>, h: Host, h': Host)
    requires Briefed(log, h) && LaunchesNew(h, h')
    ensures Briefed(log, h')
  {
    var m, l := h.main.batch[0], LaunchOf(h.main.batch[0].body);
    RestKnown(log, h.main.batch);
    match h.active
    case None =>
      LaunchGrounds(log, m, Received(l));
      TakenBriefed(log, h, Received(l), Some(l.task), h');
    case Some(busy) =>
      var r := Ended(Received(l), FailedBody(l.task, "eyes busy"));
      LaunchGrounds(log, m, r);
      TakenBriefed(log, h, r, Some(busy), h');
  }

  lemma SpawnBriefed(log: seq<Message>, h: Host, w: Worker, h': Host)
    requires Briefed(log, h) && Spawned(h, w, h') && Grounded(log, w.record) && w.record.state != J.Delivered
    ensures Briefed(log, h')
  {
  }

  lemma HandOverBriefed(log: seq<Message>, h: Host, h': Host)
    requires Briefed(log, h) && HandsOver(h, h')
    ensures Briefed(log, h')
  {
    var h0 := h.(main := Handling(h.main.batch));
    var r := if h.main.record.state == J.Received then h.main.record.(state := J.Accepted) else h.main.record;
    var w := if r.state == J.Accepted then Accepting(r) else Supervising(r, Sealing, false);
    var h1 :| Puts(h0, r, h1) && Spawned(h1, w, h');
    StaysGrounded(log, h.main.record, r);
    PutBriefed(log, h0, r, h1);
    SpawnBriefed(log, h1, w, h');
  }

  /** Recovery takes up a record with its launch, or passes it over. */
  lemma RecoveredHand(r: J.Record, rest: seq<J.Record>)
    ensures var m := Recovered(r, ToRecovery(rest));
      && Todo(m) == rest && Batch(m) == []
      && (InHand(m).Some? ==>
            && r.state != J.Delivered && InHand(m).value.launch == r.launch
            && (InHand(m).value.state == r.state || InHand(m).value.state == J.Terminal))
  {
  }

  lemma RecoverBriefed(log: seq<Message>, h: Host, h': Host)
    requires Briefed(log, h) && h.main.Recovering? && h.main.todo != []
    requires h'.main == Recovered(h.main.todo[0], ToRecovery(h.main.todo[1..])) && h' == h.(main := h'.main)
    ensures Briefed(log, h')
  {
    var r := h.main.todo[0];
    assert r in h.main.todo && forall x :: x in h.main.todo[1..] ==> x in h.main.todo;
    RecoveredHand(r, h.main.todo[1..]);
    if InHand(h'.main).Some? { StaysGrounded(log, r, InHand(h'.main).value); }
  }

  lemma QuietBriefed(log: seq<Message>, h: Host, h': Host)
    requires Briefed(log, h) && (Crashes(h, h') || Boots(h, h') || Drops(h, h') || LaunchesKnown(h, h'))
    ensures Briefed(log, h')
  {
    if h.main.Handling? && h.main.batch != [] { RestKnown(log, h.main.batch); }
  }

  lemma CancelBriefed(log: seq<Message>, h: Host, h': Host)
    requires Briefed(log, h) && CancelsUnknown(h, h')
    ensures Briefed(log, h')
  {
    RestKnown(log, h.main.batch);
    CancelGrounds(log, h.main.batch[0]);
  }

  lemma PuttingBriefed(log: seq<Message>, h: Host, h': Host)
    requires Briefed(log, h) && (LaunchesNew(h, h') || HandsOver(h, h') || MainSeals(h, h') || MainCloses(h, h'))
    ensures Briefed(log, h')
  {
    if LaunchesNew(h, h') { LaunchNewBriefed(log, h, h');
    } else if HandsOver(h, h') { HandOverBriefed(log, h, h');
    } else if MainSeals(h, h') { PutBriefed(log, h.(main := h.main.(phase := Sending)), h.main.record, h');
    } else {
      PutBriefed(log, h.(main := Resumed(h.main.next)), J.Tombstone(h.main.record.launch.task), h');
    }
  }

  lemma MainStepBriefed(log: seq<Message>, h: Host, h': Host)
    requires Briefed(log, h) && MainStep(h, h')
    ensures Briefed(log, h')
  {
    if LaunchesNew(h, h') || HandsOver(h, h') || MainSeals(h, h') || MainCloses(h, h') {
      PuttingBriefed(log, h, h');
    } else if Recovers(h, h') {
      if h.main.todo != [] { RecoverBriefed(log, h, h'); }
    } else if CancelsUnknown(h, h') {
      CancelBriefed(log, h, h');
    } else {
      QuietBriefed(log, h, h');
    }
  }

  lemma WorkerStepBriefed(log: seq<Message>, h: Host, k: nat, h': Host)
    requires Briefed(log, h) && WorkerStep(h, k, h')
    ensures Briefed(log, h')
  {
    var w := h.workers[k];
    if WorkerSeals(h, k, h') {
      PutBriefed(log, h.(workers := h.workers[k := w.(phase := Sending)]), w.record, h');
    } else if WorkerCloses(h, k, h') {
      PutBriefed(log, Finished(h, k), J.Tombstone(w.record.launch.task), h');
    } else if body :| Ends(h, k, body, h') {
      StaysGrounded(log, w.record, Ended(w.record, body));
    }
  }

  /** Whatever the answer to a mint, the poll loop keeps the launch in hand, and its batch or recovery its list. */
  lemma MintKeepsHand(h: Host, h': Host, ok: bool, minted: Secret)
    requires MintAnswered(h, ok, minted, h')
    ensures h' == h.(main := h'.main, active := h'.active)
    ensures Todo(h'.main) == Todo(h.main) && Batch(h'.main) == Batch(h.main)
    ensures InHand(h'.main).Some? && InHand(h'.main).value.launch == h.main.record.launch
    ensures InHand(h'.main).value.state == h.main.record.state || InHand(h'.main).value.state == J.Terminal
  {
    if ok { assert h.main.next.ToBatch? || h.main.next.ToRecovery?; }
  }

  lemma MintBriefed(log: seq<Message>, h: Host, h': Host, ok: bool, minted: Secret)
    requires Briefed(log, h) && MintAnswered(h, ok, minted, h')
    ensures Briefed(log, h')
  {
    MintKeepsHand(h, h', ok, minted);
    StaysGrounded(log, h.main.record, InHand(h'.main).value);
  }

  lemma WorkerAnswerBriefed(log: seq<Message>, h: Host, h': Host, k: nat, ok: bool)
    requires Briefed(log, h) && WorkerAnswered(h, k, ok, h')
    ensures Briefed(log, h')
  {
    StaysGrounded(log, h.workers[k].record, h'.workers[k].record);
  }

  // ---------------------------------------------------------------- the mail it polls

  /** A task's mail to its broker is its launch, or its cancel with the same return address. */
  lemma OwedIsKnown(s: Store, id: TaskId, n: nat)
    requires StoreInv(s) && AllEnveloped(s) && id in s.tasks && n < |s.mail.log| && s.mail.log[n].task == Some(id)
    ensures Known(s.mail.log, s.mail.log[n])
  {
    var m, log := s.mail.log[n], s.mail.log;
    RowLaunched(s, id);
    var first: nat :| LaunchMail(log, id, s.tasks[id].launcher.agent, first);
    assert Enveloped(s.tasks[id], log[first]) && (ForBroker(m) ==> Enveloped(s.tasks[id], m));
    if m.body.LaunchBody? {
      MarkAtPlace(log, id, n);
      SameLaunch(log, id, first, n);
    }
    assert Repeats(log, m, first);
  }

  lemma QueueIsKnown(s: Store, b: Session, state: TaskState, latest: bool, owed: seq<Message>, m: Message)
    requires StoreInv(s) && AllEnveloped(s) && ReadsQueue(s, b, state, latest, owed) && m in owed
    ensures Known(s.mail.log, m)
  {
    if m.task.Some? {
      var id: TaskId, n: nat :| Pending(s, b, state, latest, id, n) && m == s.mail.log[n];
      OwedIsKnown(s, id, n);
    }
  }

  lemma PollBriefed(y: System, b: Session, y': System)
    requires b in y.hosts && Inv(y.daemon) && AllEnveloped(y.daemon.db) && PollStep(y, b, y')
    requires Briefed(y.daemon.db.mail.log, y.hosts[b])
    ensures Briefed(y.daemon.db.mail.log, y'.hosts[b])
  {
    var h, h', s := y.hosts[b], y'.hosts[b], y.daemon.db;
    if h.main.Idling? {
      forall m | m in h'.main.owed ensures Known(s.mail.log, m) { QueueIsKnown(s, b, Queued, false, h'.main.owed, m); }
    } else if h'.main.Handling? {
      var cancels :| ReadsCancels(s, b, h, cancels, h');
      forall m | m in cancels ensures Known(s.mail.log, m) { QueueIsKnown(s, b, Cancelled, true, cancels, m); }
    }
  }

  // ---------------------------------------------------------------- every run

  lemma LocalBriefed(y: System, b: Session, y': System, log: seq<Message>)
    requires LocalStep(y, b, y') && Briefed(log, y.hosts[b])
    ensures Briefed(log, y'.hosts[b])
  {
    var h, h' := y.hosts[b], y'.hosts[b];
    if MainStep(h, h') { MainStepBriefed(log, h, h'); }
    else if k :| WorkerStep(h, k, h') { WorkerStepBriefed(log, h, k, h'); }
  }

  lemma SentBriefed(log: seq<Message>, h: Host, req: Frame)
    requires Briefed(log, h)
    ensures Briefed(log, Sent(h, req))
  {
  }

  lemma MainCallBriefed(y: System, b: Session, now: int, req: Frame, minted: Secret, ok: bool, y': System,
                        log: seq<Message>)
    requires MainCallStep(y, b, now, req, minted, ok, y') && Briefed(log, y.hosts[b])
    ensures Briefed(log, y'.hosts[b])
  {
    SentBriefed(log, y.hosts[b], req);
    if req.MintRequest? { MintBriefed(log, Sent(y.hosts[b], req), y'.hosts[b], ok, minted); }
  }

  lemma HostStepBriefed(y: System, b: Session, y': System)
    requires b in y.hosts && b in y'.hosts && HostStep(y, b, y') && Inv(y.daemon) && AllEnveloped(y.daemon.db)
    requires Briefed(y.daemon.db.mail.log, y.hosts[b])
    ensures Briefed(y.daemon.db.mail.log, y'.hosts[b])
  {
    var h, h', log := y.hosts[b], y'.hosts[b], y.daemon.db.mail.log;
    if LocalStep(y, b, y') { LocalBriefed(y, b, y', log);
    } else if PollStep(y, b, y') { PollBriefed(y, b, y');
    } else if req :| SendStep(y, b, req, y') { SentBriefed(log, h, req);
    } else if now, req, minted, ok :| MainCallStep(y, b, now, req, minted, ok, y') {
      MainCallBriefed(y, b, now, req, minted, ok, y', log);
    } else if k, now, req, ok :| WorkerCallStep(y, b, k, now, req, ok, y') {
      SentBriefed(log, h, req);
      WorkerAnswerBriefed(log, Sent(h, req), h', k, ok);
    }
  }

  lemma BriefedStays(log: seq<Message>, log': seq<Message>, h: Host)
    requires Briefed(log, h) && log <= log'
    ensures Briefed(log', h)
  {
    forall r | Grounded(log, r) ensures Grounded(log', r) {
      if r.state != J.Delivered { var n: nat :| Grounds(log, r, n); assert Grounds(log', r, n); }
    }
    forall m | Known(log, m) ensures Known(log', m) {
      if m.task.Some? { var n: nat :| Repeats(log, m, n); assert Repeats(log', m, n); }
    }
  }

  lemma DaemonMoves(run: seq<System>, i: nat)
    requires Broker.IsRun(run) && i + 1 < |run|
    ensures run[i + 1].daemon == run[i].daemon || Next(run[i].daemon, run[i + 1].daemon)
    ensures run[i + 1].hosts.Keys == run[i].hosts.Keys
  {
    RunMoves(run, i);
  }

  /** The ledger's envelopes hold in every state of the whole system too. */
  lemma {:induction false} SystemEnveloped(run: seq<System>, i: nat)
    requires Broker.IsRun(run) && i < |run|
    ensures AllEnveloped(run[i].daemon.db)
  {
    if i > 0 {
      SystemEnveloped(run, i - 1);
      DaemonMoves(run, i - 1);
      var d, d' := run[i - 1].daemon, run[i].daemon;
      if d' != d {
        var now, op :| Takes(d, now, op, d');
        StepEnveloped(d, now, op, d');
      }
    }
  }

  lemma {:induction false} RunBriefed(run: seq<System>, i: nat, b: Session)
    requires Broker.IsRun(run) && i < |run| && b in run[i].hosts
    ensures Briefed(run[i].daemon.db.mail.log, run[i].hosts[b])
  {
    if i > 0 {
      DaemonMoves(run, i - 1);
      RunBriefed(run, i - 1, b);
      RunStepBriefed(run, i - 1, b);
    }
  }

  lemma DaemonIsSound(run: seq<System>, i: nat)
    requires Broker.IsRun(run) && i < |run|
    ensures Inv(run[i].daemon)
  {
    RunKeeps(run, i);
  }

  lemma HostIsSound(run: seq<System>, i: nat, b: Session)
    requires Broker.IsRun(run) && i < |run| && b in run[i].hosts
    ensures HostInv(run[i].hosts[b])
  {
    RunKeeps(run, i);
    assert HostSound(run[i].daemon, b, run[i].hosts[b]);
  }

  lemma RunStepBriefed(run: seq<System>, i: nat, b: Session)
    requires Broker.IsRun(run) && i + 1 < |run| && b in run[i].hosts && b in run[i + 1].hosts
    requires Briefed(run[i].daemon.db.mail.log, run[i].hosts[b])
    ensures Briefed(run[i + 1].daemon.db.mail.log, run[i + 1].hosts[b])
  {
    StepGrows(run, i);
    if run[i + 1].hosts[b] != run[i].hosts[b] {
      DaemonIsSound(run, i);
      SystemEnveloped(run, i);
      assert Broker.StepAt(run, i);
      OnlyItMoves(run[i], run[i + 1], b);
      HostStepBriefed(run[i], b, run[i + 1]);
    }
    BriefedStays(run[i].daemon.db.mail.log, run[i + 1].daemon.db.mail.log, run[i + 1].hosts[b]);
  }

  // ---------------------------------------------------------------- what is run, and who is told

  lemma UndecidedIsAccepted(h: Host, k: nat)
    requires HostInv(h) && k in h.workers && !h.workers[k].Supervising?
    ensures h.workers[k].record.state == J.Accepted && h.workers[k].record.child.Some?
  {
    assert TaskInv(h, TaskOf(h.workers[k])) && WorkerOn(h, TaskOf(h.workers[k]), k);
  }

  /** In every reachable state, a task being accepted or run is held with what its launch said, all of it. */
  lemma ProvidersRunTheLaunch(run: seq<System>, i: nat, b: Session, k: nat, n: nat)
    requires Broker.IsRun(run) && i < |run| && b in run[i].hosts && k in run[i].hosts[b].workers
    requires !run[i].hosts[b].workers[k].Supervising?
    requires LaunchAt(run[i].daemon.db.mail.log, TaskOf(run[i].hosts[b].workers[k]), n)
    ensures Records(run[i].hosts[b].workers[k].record.launch, run[i].daemon.db.mail.log[n].body)
  {
    var w, log := run[i].hosts[b].workers[k], run[i].daemon.db.mail.log;
    HostIsSound(run, i, b);
    UndecidedIsAccepted(run[i].hosts[b], k);
    RunBriefed(run, i, b);
    DaemonIsSound(run, i);
    LaunchSays(run[i].daemon.db, w.record, n);
  }

  lemma LaunchSays(s: Store, r: J.Record, n: nat)
    requires StoreInv(s) && Grounded(s.mail.log, r) && InProgress(r) && LaunchAt(s.mail.log, r.launch.task, n)
    ensures Records(r.launch, s.mail.log[n].body)
  {
    var m: nat :| Grounds(s.mail.log, r, m);
    MarkAtPlace(s.mail.log, r.launch.task, m);
    SameLaunch(s.mail.log, r.launch.task, m, n);
  }

  /** So a provider is started with what the asker asked, whatever happened on the way. */
  lemma StartsWhatWasAsked(run: seq<System>, i: nat, j: nat, now: int, req: Request, id: TaskId, top: Option<Address>,
                           b: Session) returns (k: nat)
    requires Broker.IsRun(run) && i < j && j + 1 < |run|
    requires Takes(run[i].daemon, now, Tasks(AssignTask(req, id, top)), run[i + 1].daemon)
    requires Assign(run[i].daemon.db, now, req, id, top).1.None?
    requires (b, id) !in run[j].starts && (b, id) in run[j + 1].starts
    ensures b in run[j].hosts && b in run[j + 1].hosts && k in run[j + 1].hosts[b].workers
    ensures var w := run[j + 1].hosts[b].workers[k];
      && w.Running? && w.record.launch.task == id && w.record.launch.brief == req.brief
      && w.record.launch.replyTo == Some(req.requester)
      && (req.runtime != "" ==> w.record.launch.runtime == req.runtime)
      && (0 < req.deadlineS <= 1800 ==> w.record.launch.deadlineS == req.deadlineS)
  {
    k := StartedBy(run, j, b, id);
    var n := |run[i].daemon.db.mail.log|;
    AssignedLaunch(run[i].daemon, now, req, id, top, run[i + 1].daemon);
    RunGrows(run, i + 1, j + 1);
    assert LaunchAt(run[j + 1].daemon.db.mail.log, id, n);
    ProvidersRunTheLaunch(run, j + 1, b, k, n);
  }

  predicate SaysWhatWasAsked(body: Body, req: Request) {
    && body.LaunchBody? && body.brief == req.brief && body.replyTo == req.requester
    && (req.runtime != "" ==> body.runtime == req.runtime)
    && (0 < req.deadlineS <= 1800 ==> body.deadlineS == req.deadlineS)
  }

  lemma AssignedLaunch(d: Daemon, now: int, req: Request, id: TaskId, top: Option<Address>, d': Daemon)
    requires Takes(d, now, Tasks(AssignTask(req, id, top)), d') && Assign(d.db, now, req, id, top).1.None?
    ensures LaunchAt(d'.db.mail.log, id, |d.db.mail.log|)
    ensures SaysWhatWasAsked(d'.db.mail.log[|d.db.mail.log|].body, req)
  {
    R.AssignRecords(d.db, now, req, id, top);
    AssignEffect(d.db, now, req, id, top);
  }

  /** A start is the step of one worker. */
  lemma StartedBy(run: seq<System>, j: nat, b: Session, id: TaskId) returns (k: nat)
    requires Broker.IsRun(run) && j + 1 < |run| && (b, id) !in run[j].starts && (b, id) in run[j + 1].starts
    ensures b in run[j].hosts && b in run[j + 1].hosts && k in run[j + 1].hosts[b].workers
    ensures run[j + 1].hosts[b].workers[k].Running? && TaskOf(run[j + 1].hosts[b].workers[k]) == id
  {
    var y, y' := run[j], run[j + 1];
    assert Broker.StepAt(run, j);
    var c :| HostStep(y, c, y');
    var now, req, ok;
    k, now, req, ok :| WorkerCallStep(y, c, k, now, req, ok, y');
    assert WorkerAnswered(Sent(y.hosts[c], req), k, ok, y'.hosts[c]);
  }

  lemma AnswersTheAsker(s: Store, r: J.Record)
    requires AllEnveloped(s) && Grounded(s.mail.log, r) && r.state != J.Delivered && r.launch.task in s.tasks
    ensures r.launch.replyTo == Some(s.tasks[r.launch.task].requester)
  {
    var n: nat :| Grounds(s.mail.log, r, n);
    assert Enveloped(s.tasks[r.launch.task], s.mail.log[n]);
  }

  /** Every terminal a broker may send is addressed to the asker the ledger has for its task. */
  lemma TerminalsGoToTheAsker(run: seq<System>, i: nat, b: Session, req: Frame)
    requires Broker.IsRun(run) && i < |run| && b in run[i].hosts
    requires req.ReportRequest? && IsEnding(req.body) && req.body.task in run[i].daemon.db.tasks
    requires MainCalls(run[i].hosts[b], req) || exists k :: WorkerCalls(run[i].hosts[b], k, req)
    ensures req.target == Some(run[i].daemon.db.tasks[req.body.task].requester)
  {
    var h, s := run[i].hosts[b], run[i].daemon.db;
    HostIsSound(run, i, b);
    RunBriefed(run, i, b);
    SystemEnveloped(run, i);
    if MainCalls(h, req) { SettlerEnds(h, req); AnswersTheAsker(s, h.main.record); }
    else {
      var k :| WorkerCalls(h, k, req);
      SupervisorEnds(h, k, req);
      AnswersTheAsker(s, h.workers[k].record);
    }
  }

  lemma SettlerEnds(h: Host, req: Frame)
    requires HostInv(h) && MainCalls(h, req) && req.ReportRequest? && IsEnding(req.body)
    ensures InHand(h.main) == Some(h.main.record) && h.main.record.launch.task == req.body.task
    ensures req.target == h.main.record.launch.replyTo
  {
    assert TaskInv(h, h.main.record.launch.task) && MainOn(h, h.main.record.launch.task);
  }

  lemma SupervisorEnds(h: Host, k: nat, req: Frame)
    requires HostInv(h) && WorkerCalls(h, k, req) && IsEnding(req.body)
    ensures h.workers[k].record.launch.task == req.body.task && req.target == h.workers[k].record.launch.replyTo
  {
    assert TaskInv(h, TaskOf(h.workers[k])) && WorkerOn(h, TaskOf(h.workers[k]), k);
  }
}
