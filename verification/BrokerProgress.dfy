/** What keeps a broker going: nothing it has journalled is forgotten, and nobody in it is ever stuck. */
module BrokerProgress {
  import opened Wire
  import opened Ledger
  import opened LedgerRuns
  import opened LedgerInvariant
  import opened Broker
  import opened BrokerInvariant
  import opened BrokerSafety
  import opened BrokerRuns
  import opened BrokerTheorems
  import opened BrokerOutcomes
  import opened BrokerBriefs
  import J = Journal
  import Mail

  // ---------------------------------------------------------------- nothing is forgotten

  ghost predicate Attended(h: Host, t: TaskId) {
    || MainOn(h, t) || (exists k :: WorkerOn(h, t, k))
    || exists r :: r in Todo(h.main) && r.launch.task == t && r.state != J.Delivered
  }

  /** A task whose outcome the journal still owes the daemon has somebody at work on it. */
  ghost predicate Minded(h: Host, t: TaskId) {
    t in h.journal && h.journal[t].state != J.Delivered ==> Attended(h, t)
  }

  lemma PutOthersMinded(h: Host, r: J.Record, h': Host, t: TaskId)
    requires Puts(h, r, h') && t != r.launch.task && Minded(h, t)
    ensures Minded(h', t)
  {
    var gone :| PutsEvicting(h, r, gone, h');
    assert forall k :: WorkerOn(h, t, k) ==> WorkerOn(h', t, k);
  }

  lemma PutDelivered(h: Host, t: TaskId, h': Host)
    requires Puts(h, J.Tombstone(t), h')
    ensures Minded(h', t)
  {
    var gone :| PutsEvicting(h, J.Tombstone(t), gone, h');
  }

  /** A broker that starts takes up everything its journal owes. */
  lemma BootMinds(h: Host, h': Host, t: TaskId)
    requires Boots(h, h') && TaskInv(h, t)
    ensures Minded(h', t)
  {
    if t in h.journal { assert h.journal[t] in Todo(h'.main) && h.journal[t].launch.task == t; }
  }

  /** Steps that leave the journal as it is and drop nobody who was at work. */
  lemma NobodyLeaves(h: Host, h': Host, t: TaskId)
    requires Minded(h, t) && h'.journal == h.journal
    requires forall k :: WorkerOn(h, t, k) ==> WorkerOn(h', t, k)
    requires MainOn(h, t) ==> MainOn(h', t)
    requires forall r :: r in Todo(h.main) && r.launch.task == t && r.state != J.Delivered ==>
               MainOn(h', t) || r in Todo(h'.main)
    ensures Minded(h', t)
  {
  }

  lemma QuietStepMinds(h: Host, h': Host, t: TaskId)
    requires Minded(h, t) && (Recovers(h, h') || Drops(h, h') || LaunchesKnown(h, h') || CancelsUnknown(h, h'))
    ensures Minded(h', t)
  {
    NobodyLeaves(h, h', t);
  }

  lemma LaunchNewMinds(h: Host, h': Host, t: TaskId)
    requires Minded(h, t) && LaunchesNew(h, h')
    ensures Minded(h', t)
  {
    var l, rest := LaunchOf(h.main.batch[0].body), ToBatch(h.main.batch[1..]);
    if h.active.None? {
      PutMinds(h, h.(main := Minting(Received(l), rest), active := Some(l.task)), Received(l), h', t);
    } else {
      var r := Ended(Received(l), FailedBody(l.task, "eyes busy"));
      PutMinds(h, h.(main := Minting(r, rest)), r, h', t);
    }
  }

  /** A journal write by somebody who is at work on its task. */
  lemma PutMinds(h: Host, h1: Host, r: J.Record, h': Host, t: TaskId)
    requires Minded(h, t) && h1.journal == h.journal && Puts(h1, r, h')
    requires t != r.launch.task ==> forall k :: WorkerOn(h, t, k) ==> WorkerOn(h1, t, k)
    requires t != r.launch.task ==> (MainOn(h, t) ==> MainOn(h1, t)) && Todo(h1.main) == Todo(h.main)
    requires t == r.launch.task ==> MainOn(h1, t) || exists k :: WorkerOn(h1, t, k)
    ensures Minded(h', t)
  {
    if t == r.launch.task {
      var gone :| PutsEvicting(h1, r, gone, h');
      if k :| WorkerOn(h1, t, k) { assert WorkerOn(h', t, k); }
    } else {
      NobodyLeaves(h, h1, t);
      PutOthersMinded(h1, r, h', t);
    }
  }

  lemma HandOverMinds(h: Host, h': Host, t: TaskId)
    requires Minded(h, t) && HandsOver(h, h')
    ensures Minded(h', t)
  {
    var h0 := h.(main := Handling(h.main.batch));
    var r := if h.main.record.state == J.Received then h.main.record.(state := J.Accepted) else h.main.record;
    var w := if r.state == J.Accepted then Accepting(r) else Supervising(r, Sealing, false);
    var h1 :| Puts(h0, r, h1) && Spawned(h1, w, h');
    var k: nat :| k !in h1.workers && h' == h1.(workers := h1.workers[k := w]);
    if t == r.launch.task {
      assert WorkerOn(h', t, k);
    } else {
      PutMinds(h, h0, r, h1, t);
      NobodyLeaves(h1, h', t);
    }
  }

  lemma MainPutMinds(h: Host, h': Host, t: TaskId)
    requires Minded(h, t) && (MainSeals(h, h') || MainCloses(h, h'))
    ensures Minded(h', t)
  {
    if MainSeals(h, h') {
      PutMinds(h, h.(main := h.main.(phase := Sending)), h.main.record, h', t);
    } else {
      ClosedMinds(h, h.(main := Resumed(h.main.next)), h.main.record.launch.task, h', t);
    }
  }

  /** A tombstone settles its own task, and leaves the others who was at work on them. */
  lemma ClosedMinds(h: Host, h1: Host, own: TaskId, h': Host, t: TaskId)
    requires Minded(h, t) && h1.journal == h.journal && Puts(h1, J.Tombstone(own), h')
    requires t != own ==> forall k :: WorkerOn(h, t, k) ==> WorkerOn(h1, t, k)
    requires t != own ==> (MainOn(h, t) ==> MainOn(h1, t)) && Todo(h1.main) == Todo(h.main)
    ensures Minded(h', t)
  {
    if t == own { PutDelivered(h1, t, h'); } else { PutMinds(h, h1, J.Tombstone(own), h', t); }
  }

  /** The one step besides a crash that drops a task: a supervisor whose delivery a shutdown cancels. */
  ghost predicate Abandons(h: Host, h': Host, t: TaskId) {
    exists k :: WorkerOn(h, t, k) && WorkerAborts(h, k, h')
  }

  lemma WorkerStepMinds(h: Host, k: nat, h': Host, t: TaskId)
    requires Minded(h, t) && WorkerStep(h, k, h')
    ensures Minded(h', t) || Abandons(h, h', t)
  {
    if body :| Ends(h, k, body, h') {
      assert forall j :: WorkerOn(h, t, j) ==> WorkerOn(h', t, j);
      NobodyLeaves(h, h', t);
    } else if WorkerSeals(h, k, h') {
      var w := h.workers[k];
      var h1 := h.(workers := h.workers[k := w.(phase := Sending)]);
      assert WorkerOn(h1, w.record.launch.task, k);
      PutMinds(h, h1, w.record, h', t);
    } else if WorkerCloses(h, k, h') {
      ClosedMinds(h, Finished(h, k), TaskOf(h.workers[k]), h', t);
    } else if !WorkerOn(h, t, k) {
      NobodyLeaves(h, h', t);
    }
  }

  lemma MainStepMinds(h: Host, h': Host, t: TaskId)
    requires HostInv(h) && (h.main.Down? || Minded(h, t)) && MainStep(h, h')
    ensures h'.main.Down? || Minded(h', t)
  {
    if Crashes(h, h') {
    } else if Boots(h, h') { BootMinds(h, h', t);
    } else if LaunchesNew(h, h') { LaunchNewMinds(h, h', t);
    } else if HandsOver(h, h') { HandOverMinds(h, h', t);
    } else if MainSeals(h, h') || MainCloses(h, h') { MainPutMinds(h, h', t);
    } else { QuietStepMinds(h, h', t); }
  }

  lemma AnswerMinds(h: Host, h': Host, t: TaskId, ok: bool, minted: Secret)
    requires Minded(h, t)
    requires || MintAnswered(h, ok, minted, h')
             || MainReportAnswered(h, ok, h')
             || exists k :: WorkerAnswered(h, k, ok, h')
    ensures Minded(h', t)
  {
    if k :| WorkerAnswered(h, k, ok, h') {
      assert forall j :: WorkerOn(h, t, j) ==> WorkerOn(h', t, j);
    }
    NobodyLeaves(h, h', t);
  }

  /** A broker is down, and will take the task up when it starts; or somebody in it is at work on the task. */
  ghost predicate LookedAfter(h: Host, t: TaskId) {
    h.main.Down? || Minded(h, t)
  }

  lemma PollMinds(y: System, b: Session, y': System, t: TaskId)
    requires PollStep(y, b, y') && Minded(y.hosts[b], t)
    ensures Minded(y'.hosts[b], t)
  {
    NobodyLeaves(y.hosts[b], y'.hosts[b], t);
  }

  lemma SentMinds(h: Host, req: Frame, t: TaskId)
    requires Minded(h, t)
    ensures Minded(Sent(h, req), t)
  {
    assert forall k :: WorkerOn(h, t, k) ==> WorkerOn(Sent(h, req), t, k);
    NobodyLeaves(h, Sent(h, req), t);
  }

  lemma LocalMinds(y: System, b: Session, y': System, t: TaskId)
    requires b in y.hosts && HostInv(y.hosts[b]) && LookedAfter(y.hosts[b], t) && LocalStep(y, b, y')
    ensures LookedAfter(y'.hosts[b], t) || Abandons(y.hosts[b], y'.hosts[b], t)
  {
    if MainStep(y.hosts[b], y'.hosts[b]) {
      MainStepMinds(y.hosts[b], y'.hosts[b], t);
    } else {
      var k :| WorkerStep(y.hosts[b], k, y'.hosts[b]);
      if !y.hosts[b].main.Down? { WorkerStepMinds(y.hosts[b], k, y'.hosts[b], t); }
    }
  }

  lemma CallMinds(y: System, b: Session, y': System, t: TaskId)
    requires b in y.hosts && b in y'.hosts && HostInv(y.hosts[b]) && LookedAfter(y.hosts[b], t)
    requires (exists now, req, minted, ok :: MainCallStep(y, b, now, req, minted, ok, y'))
          || exists k, now, req, ok :: WorkerCallStep(y, b, k, now, req, ok, y')
    ensures LookedAfter(y'.hosts[b], t)
  {
    var h, h' := y.hosts[b], y'.hosts[b];
    if now, req, minted, ok :| MainCallStep(y, b, now, req, minted, ok, y') {
      SentMinds(h, req, t);
      AnswerMinds(Sent(h, req), h', t, ok, minted);
    } else {
      var k, now, req, ok :| WorkerCallStep(y, b, k, now, req, ok, y');
      if !h.main.Down? {
        SentMinds(h, req, t);
        assert WorkerAnswered(Sent(h, req), k, ok, h');
        AnswerMinds(Sent(h, req), h', t, ok, 0);
      }
    }
  }

  lemma HostStepMinds(y: System, b: Session, y': System, t: TaskId)
    requires b in y.hosts && b in y'.hosts && HostInv(y.hosts[b]) && LookedAfter(y.hosts[b], t) && HostStep(y, b, y')
    ensures LookedAfter(y'.hosts[b], t) || Abandons(y.hosts[b], y'.hosts[b], t)
  {
    if LocalStep(y, b, y') { LocalMinds(y, b, y', t); }
    else if PollStep(y, b, y') { PollMinds(y, b, y', t); }
    else if req :| SendStep(y, b, req, y') {
      if !y.hosts[b].main.Down? { SentMinds(y.hosts[b], req, t); }
    } else { CallMinds(y, b, y', t); }
  }

  lemma RunStepMinds(run: seq<System>, i: nat, b: Session, t: TaskId)
    requires Broker.IsRun(run) && i + 1 < |run| && b in run[i].hosts && LookedAfter(run[i].hosts[b], t)
    ensures b in run[i + 1].hosts
    ensures LookedAfter(run[i + 1].hosts[b], t) || Abandons(run[i].hosts[b], run[i + 1].hosts[b], t)
  {
    RunKeeps(run, i);
    RunMoves(run, i);
    assert HostSound(run[i].daemon, b, run[i].hosts[b]);
    if run[i + 1].hosts[b] != run[i].hosts[b] {
      assert Broker.StepAt(run, i);
      OnlyItMoves(run[i], run[i + 1], b);
      HostStepMinds(run[i], b, run[i + 1], t);
    }
  }

  ghost predicate AbandonsAt(run: seq<System>, k: nat, b: Session, t: TaskId)
    requires k + 1 < |run|
  {
    b in run[k].hosts && b in run[k + 1].hosts && Abandons(run[k].hosts[b], run[k + 1].hosts[b], t)
  }

  /**
   * Nothing is forgotten: from the first state, or from any in which a broker is down, whatever is lost,
   * replayed or crashes, every task in its journal whose outcome is not delivered is in the hands of its
   * poll loop, on recovery's list or with a worker, until a shutdown cancels that worker.
   */
  lemma {:induction false} NothingIsForgotten(run: seq<System>, i: nat, j: nat, b: Session, t: TaskId)
    requires Broker.IsRun(run) && i <= j < |run| && b in run[i].hosts && run[i].hosts[b].main.Down?
    requires forall k :: i <= k < j ==> !AbandonsAt(run, k, b, t)
    ensures b in run[j].hosts && LookedAfter(run[j].hosts[b], t)
  {
    if i < j {
      NothingIsForgotten(run, i, j - 1, b, t);
      RunStepMinds(run, j - 1, b, t);
      assert !AbandonsAt(run, j - 1, b, t);
    }
  }

  // ---------------------------------------------------------------- nobody is stuck

  /** A put that evicts nothing. */
  function Kept(h: Host, r: J.Record): Host
    requires r.state == J.Terminal ==> r.terminal.Some?
  {
    h.(journal := J.Without(h.journal, {}, J.Stored(r)), put := h.put + {r.launch.task},
       durable := if r.state == J.Terminal then h.durable + {(r.launch.task, r.terminal.value)} else h.durable)
  }

  lemma PutPossible(h: Host, r: J.Record)
    requires J.ValidRecord(r.launch.task, J.Stored(r))
    ensures r.state == J.Terminal ==> r.terminal.Some?
    ensures Puts(h, r, Kept(h, r))
  {
    var none: set<TaskId> := {};
    assert h.evicted + none == h.evicted;
    assert PutsEvicting(h, r, none, Kept(h, r));
  }

  lemma {:induction false} SomeFree(keys: set<nat>) returns (k: nat)
    ensures forall j :: j in keys ==> j < k
    decreases keys
  {
    k := 0;
    if keys != {} {
      var j :| j in keys;
      k := SomeFree(keys - {j});
      assert forall i :: i in keys ==> i == j || i in keys - {j};
      if k <= j { k := j + 1; }
    }
  }

  lemma SpawnPossible(h: Host, w: Worker)
    ensures exists h' :: Spawned(h, w, h')
  {
    var k := SomeFree(h.workers.Keys);
    assert k !in h.workers;
    assert Spawned(h, w, h.(workers := h.workers[k := w]));
  }

  ghost predicate GoesOn(h: Host, h': Host) { MainStep(h, h') && !h'.main.Down? }

  ghost predicate WorkerGoesOn(h: Host, k: nat, h': Host) { WorkerStep(h, k, h') && !WorkerAborts(h, k, h') }

  /** The poll loop can take a step, or has a request to send. */
  ghost predicate CanGoOn(h: Host) {
    (exists h' :: GoesOn(h, h')) || exists req :: MainCalls(h, req)
  }

  /** Whatever is first in a batch, there is something to do about it. */
  lemma FrameCanBeHandled(h: Host)
    requires h.main.Handling? && forall t :: TaskInv(h, t)
    ensures exists h' :: GoesOn(h, h')
  {
    if h.main.batch == [] {
      assert Drops(h, h.(main := Idling)) && GoesOn(h, h.(main := Idling));
    } else {
      var m := h.main.batch[0];
      if NewLaunch(h, m) { LaunchCanBeTaken(h); }
      else if RepeatedLaunch(h, m) {
        var h1, w := h.(main := Handling(h.main.batch[1..])), Supervising(h.journal[m.body.task], Sealing, false);
        SpawnPossible(h1, w);
        var h' :| Spawned(h1, w, h');
        assert LaunchesKnown(h, h') && GoesOn(h, h');
      }
      else if UnknownCancel(h, m) {
        var r := CancelledFirst(m.body.task, m.replyTo.value);
        var h' := h.(main := Settling(r, Sealing, ToBatch(h.main.batch[1..])));
        assert CancelsUnknown(h, h') && GoesOn(h, h');
      }
      else {
        var h' := h.(main := Handling(h.main.batch[1..]));
        assert Drops(h, h') && GoesOn(h, h');
      }
    }
  }

  lemma LaunchCanBeTaken(h: Host)
    requires h.main.Handling? && h.main.batch != [] && NewLaunch(h, h.main.batch[0])
    ensures exists h' :: GoesOn(h, h')
  {
    var l, rest := LaunchOf(h.main.batch[0].body), ToBatch(h.main.batch[1..]);
    if h.active.None? {
      var h1 := h.(main := Minting(Received(l), rest), active := Some(l.task));
      PutPossible(h1, Received(l));
      var h' := Kept(h1, Received(l));
      assert LaunchesNew(h, h') && GoesOn(h, h');
    } else {
      var r := Ended(Received(l), FailedBody(l.task, "eyes busy"));
      PutPossible(h.(main := Minting(r, rest)), r);
      var h' := Kept(h.(main := Minting(r, rest)), r);
      assert LaunchesNew(h, h') && GoesOn(h, h');
    }
  }

  /** The poll loop is never stuck: between crash and poll it always has a step to take or a request to send. */
  lemma MainCanGoOn(log: seq<Message>, h: Host)
    requires HostInv(h) && Briefed(log, h) && !h.main.Down? && !h.main.Idling? && !h.main.Fetching?
    ensures CanGoOn(h)
  {
    match h.main
    case Recovering(todo) =>
      var next := if todo == [] then Idling else Recovered(todo[0], ToRecovery(todo[1..]));
      assert Recovers(h, h.(main := next)) && GoesOn(h, h.(main := next));
    case Handling(_) =>
      FrameCanBeHandled(h);
    case Minting(r, _) =>
      assert MainCalls(h, MintRequest(r.launch.task, r.launch.replyTo.value.scope, h.id, h.secret));
    case Minted(r, _) =>
      assert TaskInv(h, r.launch.task) && MainOn(h, r.launch.task);
      HandOverPossible(h);
    case Settling(r, phase, _) =>
      assert TaskInv(h, r.launch.task) && MainOn(h, r.launch.task);
      SettlingCanGoOn(h);
    case _ =>
  }

  lemma HandOverPossible(h: Host)
    requires h.main.Minted? && MainSound(h)
    ensures exists h' :: GoesOn(h, h')
  {
    var h0 := h.(main := Handling(h.main.batch));
    var r := if h.main.record.state == J.Received then h.main.record.(state := J.Accepted) else h.main.record;
    PutPossible(h0, r);
    var h1 := Kept(h0, r);
    var w := if r.state == J.Accepted then Accepting(r) else Supervising(r, Sealing, false);
    SpawnPossible(h1, w);
    var h' :| Spawned(h1, w, h');
    assert HandsOver(h, h') && GoesOn(h, h');
  }

  lemma SettlingCanGoOn(h: Host)
    requires h.main.Settling? && MainSound(h)
    ensures CanGoOn(h)
  {
    var r := h.main.record;
    match h.main.phase
    case Sealing =>
      var h1 := h.(main := h.main.(phase := Sending));
      PutPossible(h1, r);
      var h' := Kept(h1, r);
      assert MainSeals(h, h') && GoesOn(h, h');
    case Sending =>
      assert MainCalls(h, TerminalRequest(h, r));
    case Closing =>
      var h1 := h.(main := Resumed(h.main.next));
      PutPossible(h1, J.Tombstone(r.launch.task));
      var h' := Kept(h1, J.Tombstone(r.launch.task));
      assert MainCloses(h, h') && GoesOn(h, h');
  }

  /** Nor is any worker. */
  lemma WorkerCanGoOn(h: Host, k: nat)
    requires HostInv(h) && k in h.workers
    ensures (exists h' :: WorkerGoesOn(h, k, h')) || exists req :: WorkerCalls(h, k, req)
  {
    var w := h.workers[k];
    var r := w.record;
    assert TaskInv(h, TaskOf(w)) && WorkerOn(h, TaskOf(w), k);
    match w
    case Accepting(_) => assert WorkerCalls(h, k, AcceptRequest(h, r));
    case Running(_) =>
      var body := FailedBody(r.launch.task, "");
      var h' := h.(workers := h.workers[k := Supervising(Ended(r, body), Sealing, true)]);
      assert Ends(h, k, body, h') && WorkerGoesOn(h, k, h');
    case Supervising(_, phase, _) => SupervisorCanGoOn(h, k);
  }

  lemma SupervisorCanGoOn(h: Host, k: nat)
    requires k in h.workers && h.workers[k].Supervising? && WorkerSound(h, h.workers[k])
    ensures (exists h' :: WorkerGoesOn(h, k, h')) || exists req :: WorkerCalls(h, k, req)
  {
    var w := h.workers[k];
    var r := w.record;
    match w.phase
    case Sealing =>
      var h1 := h.(workers := h.workers[k := w.(phase := Sending)]);
      PutPossible(h1, r);
      var h' := Kept(h1, r);
      assert k in h'.workers && k !in Finished(h, k).workers;
      assert WorkerSeals(h, k, h') && WorkerGoesOn(h, k, h');
    case Sending =>
      assert WorkerCalls(h, k, TerminalRequest(h, r));
    case Closing =>
      PutPossible(Finished(h, k), J.Tombstone(r.launch.task));
      var h' := Kept(Finished(h, k), J.Tombstone(r.launch.task));
      assert WorkerCloses(h, k, h') && WorkerGoesOn(h, k, h');
  }

  /** In every reachable state the poll loop and every worker can go on: by a step of their own, or by a request. */
  lemma NobodyIsStuck(run: seq<System>, i: nat, b: Session, k: nat)
    requires Broker.IsRun(run) && i < |run| && b in run[i].hosts
    ensures var h := run[i].hosts[b];
      && (h.main.Down? || h.main.Idling? || h.main.Fetching? || CanGoOn(h))
      && (k in h.workers ==> (exists h' :: WorkerGoesOn(h, k, h')) || exists req :: WorkerCalls(h, k, req))
  {
    var h := run[i].hosts[b];
    RunKeeps(run, i);
    RunBriefed(run, i, b);
    assert HostSound(run[i].daemon, b, h);
    if !h.main.Down? && !h.main.Idling? && !h.main.Fetching? { MainCanGoOn(run[i].daemon.db.mail.log, h); }
    if k in h.workers { WorkerCanGoOn(h, k); }
  }
}
