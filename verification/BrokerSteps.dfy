/** Every step of one broker keeps its invariant. */
module BrokerSteps {
  import opened Wire
  import opened Ledger
  import opened LedgerRuns
  import opened Broker
  import opened BrokerInvariant
  import J = Journal

  // ---------------------------------------------------------------- what a step owes its bystanders

  /** A step about task `t0` leaves every other task's invariant in place. */
  lemma OthersKept(h: Host, h': Host, t0: TaskId)
    requires forall t :: TaskInv(h, t)
    requires forall t :: t != t0 ==> Unaffected(h, h', t)
    ensures forall t :: t != t0 ==> TaskInv(h', t)
  {
    forall t | t != t0 ensures TaskInv(h', t) {
      assert TaskInv(h, t);
      UnaffectedKeeps(h, h', t);
    }
  }

  /** So does a journal write that comes with it. */
  lemma OthersKeptByPut(h: Host, h1: Host, r: J.Record, gone: set<TaskId>, h': Host)
    requires forall t :: TaskInv(h, t)
    requires forall t :: t != r.launch.task ==> Unaffected(h, h1, t)
    requires PutsEvicting(h1, r, gone, h')
    ensures forall t :: t != r.launch.task ==> TaskInv(h', t)
  {
    OthersKept(h, h1, r.launch.task);
    forall t | t != r.launch.task ensures TaskInv(h', t) {
      assert TaskInv(h1, t);
      PutsOthers(h1, r, gone, h', t);
    }
  }

  /** What a journal write leaves of its own task's entry and history. */
  lemma PutsOwn(h: Host, r: J.Record, gone: set<TaskId>, h': Host)
    requires PutsEvicting(h, r, gone, h')
    ensures var t := r.launch.task;
      && t in h'.journal && h'.journal[t] == J.Stored(r) && t in h'.put
      && (t in h'.evicted <==> t in h.evicted)
      && h'.confirmed == h.confirmed && h'.main == h.main && h'.workers == h.workers && h'.active == h.active
      && (forall body :: (t, body) in h'.durable <==>
            (t, body) in h.durable || (r.state == J.Terminal && r.terminal == Some(body)))
  {
  }

  /** Nobody takes the broker or gives it back. */
  lemma HeldAsBefore(h: Host, h': Host)
    requires BrokerHeldOnce(h) && h'.active == h.active
    requires forall j :: Holding(h', j) ==> Holding(h, j) && TaskOf(h'.workers[j]) == TaskOf(h.workers[j])
    requires Claiming(h'.main) ==>
      Claiming(h.main) && InHand(h'.main).value.launch.task == InHand(h.main).value.launch.task
    ensures BrokerHeldOnce(h')
  {
  }

  lemma FinishedHolds(h: Host, k: nat)
    requires RecoverySound(h) && BrokerHeldOnce(h) && k in h.workers
    ensures RecoverySound(Finished(h, k)) && BrokerHeldOnce(Finished(h, k))
  {
    var h' := Finished(h, k);
    assert forall j :: Holding(h', j) ==> Holding(h, j);
    if !(h.workers[k].Supervising? && !h.workers[k].holds) { assert Holding(h, k); }
  }

  lemma SameHolds(h: Host, h': Host)
    requires BrokerHeldOnce(h) && RecoverySound(h) && Ahead(h.main).None?
    requires h'.workers == h.workers && h'.main == h.main && h'.active == h.active
    ensures BrokerHeldOnce(h') && RecoverySound(h')
  {
    assert forall j :: Holding(h', j) <==> Holding(h, j);
  }

  // ---------------------------------------------------------------- the poll loop

  lemma CrashKeeps(h: Host, h': Host)
    requires HostInv(h) && Crashes(h, h')
    ensures HostInv(h')
  {
    forall t ensures TaskInv(h', t) {
      assert TaskInv(h, t);
      assert forall body :: Claimed(h', t, body) ==> Claimed(h, t, body);
    }
  }

  /** Steps that only move the poll loop between frames touch no task. */
  lemma LoopKeeps(h: Host, h': Host)
    requires HostInv(h) && h' == h.(main := h'.main)
    requires InHand(h.main).None? && InHand(h'.main).None? && RecoverySound(h')
    ensures HostInv(h')
  {
    forall t ensures TaskInv(h', t) { assert TaskInv(h, t); UnaffectedKeeps(h, h', t); }
    HeldAsBefore(h, h');
  }

  lemma BootKeeps(h: Host, h': Host)
    requires HostInv(h) && Boots(h, h')
    ensures HostInv(h')
  {
    forall i | 0 <= i < |h'.main.todo| ensures StillTrue(h', h'.main.todo[i]) {
      assert h'.main.todo[i] in h'.main.todo;
    }
    LoopKeeps(h, h');
  }

  /** May the poll loop settle this terminal record, or ask for its child, without contradicting anyone? */
  ghost predicate MayTakeUp(h: Host, r: J.Record) {
    var t := r.launch.task;
    t !in h.evicted ==>
      && (Journalled(h, t, J.Accepted) ==> Unattended(h, t))
      && (Journalled(h, t, J.Terminal) ==> h.journal[t].terminal == r.terminal)
      && !Journalled(h, t, J.Delivered)
  }

  /** At most one body more than before, and then nobody claimed another. */
  ghost predicate AddsBody(h: Host, h': Host, t: TaskId, body: Body) {
    && (forall b :: Claimed(h', t, b) ==> Claimed(h, t, b) || b == body)
    && (Claimed(h, t, body) || forall b :: !Claimed(h, t, b))
  }

  /** The poll loop comes to hold a terminal that is not durable yet. */
  lemma SealingOwn(h: Host, h': Host, t: TaskId)
    requires TaskInv(h, t) && h' == h.(main := h'.main, active := h'.active)
    requires h'.main.Settling? && h'.main.phase == Sealing && h'.main.record.launch.task == t
    requires Terminated(h'.main.record)
    requires t !in h.evicted ==>
      AddsBody(h, h', t, h'.main.record.terminal.value) && (Journalled(h, t, J.Accepted) ==> Unattended(h, t))
    ensures TaskInv(h', t)
  {
    assert forall j :: WorkerOn(h', t, j) <==> WorkerOn(h, t, j);
  }

  lemma TakeUpOwn(h: Host, h': Host, r: J.Record)
    requires TaskInv(h, r.launch.task) && InHand(h.main).None? && h' == h.(main := h'.main) && Terminated(r)
    requires h'.main.Settling? && h'.main.record == r && h'.main.phase == Sealing && MayTakeUp(h, r)
    ensures TaskInv(h', r.launch.task)
  {
    var t := r.launch.task;
    assert forall j :: WorkerOn(h', t, j) <==> WorkerOn(h, t, j);
    if Journalled(h, t, J.Terminal) { assert Claimed(h, t, r.terminal.value) || t in h.evicted; }
    SealingOwn(h, h', t);
  }

  /** The poll loop takes up a terminal record that is already in the journal or not yet claimed by anyone. */
  lemma TakeUpKeeps(h: Host, h': Host, r: J.Record)
    requires HostInv(h) && InHand(h.main).None? && h' == h.(main := h'.main) && Terminated(r)
    requires h'.main.Settling? && h'.main.record == r && h'.main.phase == Sealing && RecoverySound(h')
    requires MayTakeUp(h, r)
    ensures HostInv(h')
  {
    assert TaskInv(h, r.launch.task);
    TakeUpOwn(h, h', r);
    OthersKept(h, h', r.launch.task);
    HeldAsBefore(h, h');
  }

  /** Recovery asks for the child of a received record. */
  lemma MintingKeeps(h: Host, h': Host, r: J.Record)
    requires HostInv(h) && InHand(h.main).None? && h' == h.(main := h'.main) && h.workers == map[] && h.active == None
    requires h'.main.Minting? && h'.main.record == r && h'.main.next.ToRecovery? && RecoverySound(h')
    requires r.launch.task in h.journal && h.journal[r.launch.task] == r && r.state == J.Received
    ensures HostInv(h')
  {
    forall t ensures TaskInv(h', t) {
      assert TaskInv(h, t);
      if t != r.launch.task { UnaffectedKeeps(h, h', t); }
      else { assert forall body :: Claimed(h', t, body) ==> Claimed(h, t, body); }
    }
  }

  lemma RecoveryAdvances(h: Host, h': Host)
    requires RecoverySound(h) && h.main.Recovering? && h.main.todo != [] && h' == h.(main := h'.main)
    requires Ahead(h'.main) == Some(h.main.todo[1..])
    requires InHand(h'.main).Some? ==> InHand(h'.main).value.launch.task == h.main.todo[0].launch.task
    ensures RecoverySound(h') && StillTrue(h, h.main.todo[0])
  {
    var todo := h.main.todo;
    assert forall i :: 0 <= i < |todo| - 1 ==> todo[1..][i] == todo[i + 1] && StillTrue(h, todo[i + 1]);
  }

  lemma RecoveredAhead(r: J.Record, rest: seq<J.Record>)
    ensures Ahead(Recovered(r, ToRecovery(rest))) == Some(rest)
    ensures InHand(Recovered(r, ToRecovery(rest))).Some? ==>
      InHand(Recovered(r, ToRecovery(rest))).value.launch.task == r.launch.task
  {
  }

  lemma RecoverKeeps(h: Host, h': Host)
    requires HostInv(h) && Recovers(h, h')
    ensures HostInv(h')
  {
    if h.main.todo == [] {
      LoopKeeps(h, h');
    } else {
      RecoveredAhead(h.main.todo[0], h.main.todo[1..]);
      RecoveryAdvances(h, h');
      assert TaskInv(h, h.main.todo[0].launch.task);
      RecoverOneKeeps(h, h', h.main.todo[0]);
    }
  }

  lemma RecoverOneKeeps(h: Host, h': Host, r: J.Record)
    requires HostInv(h) && Recovers(h, h') && h.main.todo != [] && r == h.main.todo[0]
    requires TaskInv(h, r.launch.task) && StillTrue(h, r) && RecoverySound(h')
    ensures HostInv(h')
  {
    if r.state == J.Delivered { LoopKeeps(h, h'); }
    else if r.state == J.Terminal || r.child.Some? {
      RecoveredMayBeTakenUp(h, r, h'.main.record);
      TakeUpKeeps(h, h', h'.main.record);
    }
    else { MintingKeeps(h, h', r); }
  }

  /** A journalled record, or its interrupted form, contradicts nobody: during recovery nobody else is at work. */
  lemma RecoveredMayBeTakenUp(h: Host, r: J.Record, taken: J.Record)
    requires TaskInv(h, r.launch.task) && StillTrue(h, r) && r.state != J.Delivered && h.workers == map[]
    requires taken == if r.state == J.Terminal then r else Ended(r, Interrupted(r))
    ensures Terminated(taken) && MayTakeUp(h, taken)
  {
  }

  lemma CancelUnknownKeeps(h: Host, h': Host)
    requires HostInv(h) && CancelsUnknown(h, h')
    ensures HostInv(h')
  {
    assert TaskInv(h, h'.main.record.launch.task);
    TakeUpKeeps(h, h', h'.main.record);
  }

  lemma LaunchKnownOwn(h: Host, h': Host, t: TaskId)
    requires TaskInv(h, t) && LaunchesKnown(h, h') && t == h.main.batch[0].body.task
    ensures TaskInv(h', t)
  {
    assert forall body :: Claimed(h', t, body) ==> Claimed(h, t, body);
  }

  /** A second supervisor holds the body the journal already has. */
  lemma LaunchKnownKeeps(h: Host, h': Host)
    requires HostInv(h) && LaunchesKnown(h, h')
    ensures HostInv(h')
  {
    var t0 := h.main.batch[0].body.task;
    assert TaskInv(h, t0);
    LaunchKnownOwn(h, h', t0);
    OthersKept(h, h', t0);
    HeldAsBefore(h, h');
  }

  /** Only the history of requests grows. */
  lemma SentKeeps(h: Host, req: Frame)
    requires HostInv(h)
    ensures HostInv(Sent(h, req))
  {
    forall t ensures TaskInv(Sent(h, req), t) { assert TaskInv(h, t); UnaffectedKeeps(h, Sent(h, req), t); }
    HeldAsBefore(h, Sent(h, req));
  }

  // ---------------------------------------------------------------- workers

  /** Worker `k` goes on with the same task. */
  predicate WorkerMoves(h: Host, k: nat, w: Worker, h': Host) {
    && k in h.workers && TaskOf(w) == TaskOf(h.workers[k])
    && h'.workers == h.workers[k := w] && h'.main == h.main && h'.active == h.active
    && h'.journal == h.journal && h'.put == h.put && h'.evicted == h.evicted && h'.durable == h.durable
    && h.confirmed <= h'.confirmed <= h.confirmed + {TaskOf(w)}
  }

  lemma EndOwn(h: Host, k: nat, w: Worker, h': Host)
    requires WorkerMoves(h, k, w, h') && TaskInv(h, TaskOf(w)) && h'.confirmed == h.confirmed
    requires !h.workers[k].Supervising?
    requires w.Supervising? && w.phase == Sealing && Terminated(w.record)
    ensures TaskInv(h', TaskOf(w))
  {
    var t := TaskOf(w);
    assert WorkerOn(h, t, k);
    assert forall j :: WorkerOn(h', t, j) <==> WorkerOn(h, t, j);
    assert forall body :: Claimed(h', t, body) ==> Some(body) == w.record.terminal;
  }

  lemma StartOwn(h: Host, k: nat, w: Worker, h': Host)
    requires WorkerMoves(h, k, w, h') && TaskInv(h, TaskOf(w)) && h'.confirmed == h.confirmed && h.workers[k].Accepting?
    requires w == Running(h.workers[k].record)
    ensures TaskInv(h', TaskOf(w))
  {
    var t := TaskOf(w);
    assert WorkerOn(h, t, k);
    assert forall j :: WorkerOn(h', t, j) <==> WorkerOn(h, t, j);
    assert forall body :: Claimed(h', t, body) ==> Claimed(h, t, body);
  }

  lemma ConfirmOwn(h: Host, k: nat, w: Worker, h': Host)
    requires WorkerMoves(h, k, w, h') && TaskInv(h, TaskOf(w)) && h'.confirmed == h.confirmed + {TaskOf(w)}
    requires h.workers[k].Supervising? && h.workers[k].phase == Sending && w == h.workers[k].(phase := Closing)
    ensures TaskInv(h', TaskOf(w))
  {
    var t := TaskOf(w);
    assert WorkerOn(h, t, k);
    assert forall j :: WorkerOn(h', t, j) <==> WorkerOn(h, t, j);
    assert forall body :: Claimed(h', t, body) ==> Claimed(h, t, body);
  }

  lemma WorkerMoveKeeps(h: Host, k: nat, w: Worker, h': Host)
    requires HostInv(h) && WorkerMoves(h, k, w, h') && TaskInv(h', TaskOf(w))
    requires w.Supervising? ==> w.holds == (if h.workers[k].Supervising? then h.workers[k].holds else true)
    requires !w.Supervising? ==> !h.workers[k].Supervising?
    ensures HostInv(h')
  {
    OthersKept(h, h', TaskOf(w));
    HeldAsBefore(h, h');
  }

  lemma AbortOwn(h: Host, k: nat, h': Host, t: TaskId)
    requires k in h.workers && t == TaskOf(h.workers[k]) && TaskInv(h, t) && WorkerAborts(h, k, h')
    ensures TaskInv(h', t)
  {
    assert WorkerOn(h, t, k);
    assert forall j :: WorkerOn(h', t, j) ==> WorkerOn(h, t, j);
    assert forall body :: Claimed(h', t, body) ==> Claimed(h, t, body);
  }

  lemma AbortKeeps(h: Host, k: nat, h': Host)
    requires HostInv(h) && WorkerAborts(h, k, h')
    ensures HostInv(h')
  {
    var t0 := TaskOf(h.workers[k]);
    assert TaskInv(h, t0);
    AbortOwn(h, k, h', t0);
    OthersKept(h, h', t0);
    FinishedHolds(h, k);
  }

  lemma WorkerSealOwn(h: Host, k: nat, h1: Host, gone: set<TaskId>, h': Host, t: TaskId)
    requires k in h.workers && h.workers[k].Supervising? && h.workers[k].phase == Sealing && t == TaskOf(h.workers[k])
    requires TaskInv(h, t) && h1 == h.(workers := h.workers[k := h.workers[k].(phase := Sending)])
    requires PutsEvicting(h1, h.workers[k].record, gone, h')
    ensures TaskInv(h', t)
  {
    PutsOwn(h1, h.workers[k].record, gone, h');
    assert WorkerOn(h, t, k);
    assert forall j :: WorkerOn(h', t, j) <==> WorkerOn(h, t, j);
    assert forall body :: Claimed(h', t, body) ==> Claimed(h, t, body);
  }

  lemma WorkerPutOthers(h: Host, k: nat, h1: Host, r: J.Record, gone: set<TaskId>, h': Host)
    requires k in h.workers && h.workers[k].Supervising? && r.launch.task == TaskOf(h.workers[k])
    requires PutsEvicting(h1, r, gone, h') && forall t :: TaskInv(h, t)
    requires h1 == Finished(h, k) || h1 == h.(workers := h.workers[k := h.workers[k].(phase := Sending)])
    ensures forall t :: t != r.launch.task ==> TaskInv(h', t)
  {
    OthersKeptByPut(h, h1, r, gone, h');
  }

  /** A worker that takes the next phase holds the broker as before. */
  lemma PhaseHolds(h: Host, k: nat, h': Host)
    requires BrokerHeldOnce(h) && RecoverySound(h) && k in h.workers && h.workers[k].Supervising?
    requires h'.workers == h.workers[k := h.workers[k].(phase := Sending)] && h'.main == h.main && h'.active == h.active
    ensures BrokerHeldOnce(h') && RecoverySound(h')
  {
    HeldAsBefore(h, h');
  }

  lemma WorkerSealKeeps(h: Host, k: nat, h': Host)
    requires HostInv(h) && WorkerSeals(h, k, h')
    ensures HostInv(h')
  {
    var r := h.workers[k].record;
    var h1 := h.(workers := h.workers[k := h.workers[k].(phase := Sending)]);
    var gone :| PutsEvicting(h1, r, gone, h');
    assert TaskInv(h, r.launch.task);
    WorkerSealOwn(h, k, h1, gone, h', r.launch.task);
    WorkerPutOthers(h, k, h1, r, gone, h');
    PhaseHolds(h, k, h');
  }

  lemma WorkerCloseOwn(h: Host, k: nat, gone: set<TaskId>, h': Host, t: TaskId)
    requires k in h.workers && h.workers[k].Supervising? && h.workers[k].phase == Closing && t == TaskOf(h.workers[k])
    requires TaskInv(h, t) && PutsEvicting(Finished(h, k), J.Tombstone(t), gone, h')
    ensures TaskInv(h', t)
  {
    PutsOwn(Finished(h, k), J.Tombstone(t), gone, h');
    assert WorkerOn(h, t, k);
    assert forall j :: WorkerOn(h', t, j) ==> WorkerOn(h, t, j);
    assert forall body :: Claimed(h', t, body) ==> Claimed(h, t, body);
  }

  lemma WorkerCloseKeeps(h: Host, k: nat, h': Host)
    requires HostInv(h) && WorkerCloses(h, k, h')
    ensures HostInv(h')
  {
    var t0, h1 := TaskOf(h.workers[k]), Finished(h, k);
    var gone :| PutsEvicting(h1, J.Tombstone(t0), gone, h');
    assert TaskInv(h, t0);
    WorkerCloseOwn(h, k, gone, h', t0);
    WorkerPutOthers(h, k, h1, J.Tombstone(t0), gone, h');
    FinishedHolds(h, k);
    SameHolds(h1, h');
  }

  // ---------------------------------------------------------------- the poll loop's own terminals

  lemma MainSealOwn(h: Host, h1: Host, gone: set<TaskId>, h': Host, t: TaskId)
    requires h.main.Settling? && h.main.phase == Sealing && t == h.main.record.launch.task && TaskInv(h, t)
    requires h1 == h.(main := h.main.(phase := Sending)) && PutsEvicting(h1, h.main.record, gone, h')
    ensures TaskInv(h', t)
  {
    PutsOwn(h1, h.main.record, gone, h');
    assert forall j :: WorkerOn(h', t, j) <==> WorkerOn(h, t, j);
    assert forall body :: Claimed(h', t, body) ==> Claimed(h, t, body);
  }

  lemma MainCloseOwn(h: Host, h1: Host, gone: set<TaskId>, h': Host, t: TaskId)
    requires h.main.Settling? && h.main.phase == Closing && t == h.main.record.launch.task && TaskInv(h, t)
    requires h1 == h.(main := Resumed(h.main.next)) && PutsEvicting(h1, J.Tombstone(t), gone, h')
    ensures TaskInv(h', t)
  {
    PutsOwn(h1, J.Tombstone(t), gone, h');
    assert forall j :: WorkerOn(h', t, j) <==> WorkerOn(h, t, j);
    assert forall body :: Claimed(h', t, body) ==> Claimed(h, t, body);
  }

  /** A recovery write leaves the rest of the snapshot true. */
  lemma PutsRecover(h: Host, h1: Host, r: J.Record, gone: set<TaskId>, h': Host)
    requires RecoverySound(h) && h.main.Settling? && h.main.record.launch.task == r.launch.task
    requires h1 == h.(main := h1.main) && PutsEvicting(h1, r, gone, h')
    requires h1.main == Resumed(h.main.next) || h1.main == h.main.(phase := Sending)
    ensures RecoverySound(h')
  {
    if Ahead(h'.main).Some? {
      var todo := Ahead(h.main).value;
      forall i | 0 <= i < |todo| ensures StillTrue(h', todo[i]) {
        assert StillTrue(h, todo[i]) && !MainOn(h, todo[i].launch.task);
      }
    }
  }

  lemma MainSealKeeps(h: Host, h': Host)
    requires HostInv(h) && MainSeals(h, h')
    ensures HostInv(h')
  {
    var r, h1 := h.main.record, h.(main := h.main.(phase := Sending));
    var gone :| PutsEvicting(h1, r, gone, h');
    assert TaskInv(h, r.launch.task);
    MainSealOwn(h, h1, gone, h', r.launch.task);
    OthersKeptByPut(h, h1, r, gone, h');
    HeldAsBefore(h, h');
    PutsRecover(h, h1, r, gone, h');
  }

  lemma MainCloseKeeps(h: Host, h': Host)
    requires HostInv(h) && MainCloses(h, h')
    ensures HostInv(h')
  {
    var t0, h1 := h.main.record.launch.task, h.(main := Resumed(h.main.next));
    var gone :| PutsEvicting(h1, J.Tombstone(t0), gone, h');
    assert TaskInv(h, t0);
    MainCloseOwn(h, h1, gone, h', t0);
    OthersKeptByPut(h, h1, J.Tombstone(t0), gone, h');
    HeldAsBefore(h, h');
    PutsRecover(h, h1, J.Tombstone(t0), gone, h');
  }

  lemma ConfirmMainOwn(h: Host, h': Host, t: TaskId)
    requires h.main.Settling? && h.main.phase == Sending && t == h.main.record.launch.task && TaskInv(h, t)
    requires h' == Confirmed(h.(main := h.main.(phase := Closing)), t)
    ensures TaskInv(h', t)
  {
    assert forall j :: WorkerOn(h', t, j) <==> WorkerOn(h, t, j);
    assert forall body :: Claimed(h', t, body) ==> Claimed(h, t, body);
  }

  lemma ConfirmMainKeeps(h: Host, h': Host)
    requires HostInv(h) && h.main.Settling? && h.main.phase == Sending
    requires h' == Confirmed(h.(main := h.main.(phase := Closing)), h.main.record.launch.task)
    ensures HostInv(h')
  {
    var t0 := h.main.record.launch.task;
    assert TaskInv(h, t0);
    ConfirmMainOwn(h, h', t0);
    OthersKept(h, h', t0);
    HeldAsBefore(h, h');
    if Ahead(h'.main).Some? {
      assert Ahead(h'.main) == Ahead(h.main);
      assert forall r :: StillTrue(h, r) ==> StillTrue(h', r);
    }
  }

  // ---------------------------------------------------------------- launching

  lemma LaunchNewOwn(h: Host, h1: Host, r: J.Record, gone: set<TaskId>, h': Host)
    requires TaskInv(h, r.launch.task) && r.launch.task !in h.journal && InHand(h.main).None?
    requires h1 == h.(main := h1.main, active := h1.active) && h1.main.Minting? && h1.main.record == r
    requires h1.main.next.ToBatch?
    requires PutsEvicting(h1, r, gone, h') && r.child.None?
    requires Terminated(r) || (r.state == J.Received && r.terminal.None?)
    ensures TaskInv(h', r.launch.task)
  {
    var t := r.launch.task;
    PutsOwn(h1, r, gone, h');
    assert forall j :: WorkerOn(h', t, j) <==> WorkerOn(h, t, j);
    assert forall body :: Claimed(h', t, body) ==> Claimed(h, t, body) || Some(body) == r.terminal;
  }

  lemma LaunchNewKeeps(h: Host, h': Host)
    requires HostInv(h) && LaunchesNew(h, h')
    ensures HostInv(h')
  {
    var r := if h.active.None? then Received(LaunchOf(h.main.batch[0].body))
             else Ended(Received(LaunchOf(h.main.batch[0].body)), FailedBody(h.main.batch[0].body.task, "eyes busy"));
    var h1 := h.(main := Minting(r, ToBatch(h.main.batch[1..])),
                 active := if h.active.None? then Some(r.launch.task) else h.active);
    var gone :| PutsEvicting(h1, r, gone, h');
    assert TaskInv(h, r.launch.task);
    LaunchNewOwn(h, h1, r, gone, h');
    OthersKeptByPut(h, h1, r, gone, h');
    LaunchNewHolds(h, h');
  }

  /** Only a launch that found the broker free claims it. */
  lemma LaunchNewHolds(h: Host, h': Host)
    requires BrokerHeldOnce(h) && InHand(h.main).None? && h'.workers == h.workers
    requires h'.main.Minting? && h'.main.next.ToBatch?
    requires if h.active.None? then h'.active == Some(h'.main.record.launch.task)
             else h'.active == h.active && h'.main.record.state == J.Terminal
    ensures BrokerHeldOnce(h')
  {
    if h.active.None? { assert forall j :: !Holding(h, j); } else { HeldAsBefore(h, h'); }
  }

  /** A minted record becomes accepted; a terminal one stays. */
  function Promoted(r: J.Record): J.Record {
    if r.state == J.Received then r.(state := J.Accepted) else r
  }

  function Taker(r: J.Record): Worker {
    if r.state == J.Accepted then Accepting(r) else Supervising(r, Sealing, false)
  }

  lemma HandOverOwn(h: Host, h1: Host, r: J.Record, gone: set<TaskId>, h2: Host, k: nat, h': Host)
    requires h.main.Minted? && TaskInv(h, r.launch.task) && r == Promoted(h.main.record)
    requires h1 == h.(main := Handling(h.main.batch)) && PutsEvicting(h1, r, gone, h2)
    requires k !in h2.workers && h' == h2.(workers := h2.workers[k := Taker(r)])
    ensures TaskInv(h', r.launch.task)
  {
    var t := r.launch.task;
    PutsOwn(h1, r, gone, h2);
    assert MainOn(h, t);
    assert forall j :: WorkerOn(h', t, j) <==> j == k || WorkerOn(h, t, j);
    assert forall body :: Claimed(h', t, body) ==> Claimed(h, t, body);
  }

  lemma HandOverParts(h: Host, h': Host) returns (gone: set<TaskId>, h2: Host, k: nat)
    requires HandsOver(h, h')
    ensures PutsEvicting(h.(main := Handling(h.main.batch)), Promoted(h.main.record), gone, h2)
    ensures k !in h2.workers && h' == h2.(workers := h2.workers[k := Taker(Promoted(h.main.record))])
  {
    var h1, r := h.(main := Handling(h.main.batch)), Promoted(h.main.record);
    h2 :| Puts(h1, r, h2) && Spawned(h2, Taker(r), h');
    gone :| PutsEvicting(h1, r, gone, h2);
    k :| k !in h2.workers && h' == h2.(workers := h2.workers[k := Taker(r)]);
  }

  lemma SpawnOthers(h: Host, k: nat, w: Worker, h': Host)
    requires k !in h.workers && h' == h.(workers := h.workers[k := w])
    requires forall t :: t != TaskOf(w) ==> TaskInv(h, t)
    ensures forall t :: t != TaskOf(w) ==> TaskInv(h', t)
  {
    forall t | t != TaskOf(w) ensures TaskInv(h', t) {
      assert TaskInv(h, t);
      UnaffectedKeeps(h, h', t);
    }
  }

  lemma HandOverOthers(h: Host, h': Host, gone: set<TaskId>, h2: Host, k: nat)
    requires h.main.Minted? && forall t :: TaskInv(h, t)
    requires PutsEvicting(h.(main := Handling(h.main.batch)), Promoted(h.main.record), gone, h2)
    requires k !in h2.workers && h' == h2.(workers := h2.workers[k := Taker(Promoted(h.main.record))])
    ensures forall t :: t != h.main.record.launch.task ==> TaskInv(h', t)
  {
    var r := Promoted(h.main.record);
    OthersKeptByPut(h, h.(main := Handling(h.main.batch)), r, gone, h2);
    SpawnOthers(h2, k, Taker(r), h');
  }

  lemma HandOverKeeps(h: Host, h': Host)
    requires HostInv(h) && HandsOver(h, h')
    ensures HostInv(h')
  {
    var gone, h2, k := HandOverParts(h, h');
    var r := Promoted(h.main.record);
    assert TaskInv(h, r.launch.task);
    HandOverOwn(h, h.(main := Handling(h.main.batch)), r, gone, h2, k, h');
    HandOverOthers(h, h', gone, h2, k);
    HandOverHolds(h, h', k, Taker(r));
  }

  lemma HandOverHolds(h: Host, h': Host, k: nat, w: Worker)
    requires BrokerHeldOnce(h) && h.main.Minted? && h'.main.Handling? && h'.active == h.active
    requires k !in h.workers && h'.workers == h.workers[k := w] && TaskOf(w) == h.main.record.launch.task
    requires if h.main.record.state == J.Received then w.Accepting? else w.Supervising? && !w.holds
    ensures BrokerHeldOnce(h')
  {
    assert forall j :: Holding(h', j) ==> (j == k && w.Accepting?) || Holding(h, j);
    assert w.Accepting? ==> Claiming(h.main);
  }

  /** In a batch the record only gains its child. */
  lemma MintedInBatch(h: Host, minted: Secret, h': Host, t: TaskId)
    requires h.main.Minting? && h.main.next.ToBatch? && t == h.main.record.launch.task && TaskInv(h, t)
    requires t !in h.evicted
    requires MintAnswered(h, true, minted, h')
    ensures TaskInv(h', t)
  {
    assert forall j :: WorkerOn(h', t, j) <==> WorkerOn(h, t, j);
    assert forall body :: Claimed(h', t, body) ==> Claimed(h, t, body);
  }

  /** A record being minted is either terminal, which is then what it claims, or nobody claims anything. */
  lemma MintingClaims(h: Host, t: TaskId)
    requires h.main.Minting? && t == h.main.record.launch.task && TaskInv(h, t) && t !in h.evicted
    ensures !Journalled(h, t, J.Accepted)
    ensures var r := h.main.record;
      if r.terminal.Some? then Terminated(r) && Claimed(h, t, r.terminal.value)
      else r.state == J.Received && forall b :: !Claimed(h, t, b)
  {
    assert MainOn(h, t);
  }

  /** In recovery it is failed at once: what was interrupted is not run again. */
  lemma MintedInRecovery(h: Host, minted: Secret, h': Host, t: TaskId)
    requires h.main.Minting? && h.main.next.ToRecovery? && t == h.main.record.launch.task && TaskInv(h, t)
    requires t !in h.evicted
    requires MintAnswered(h, true, minted, h')
    ensures TaskInv(h', t)
  {
    MintingClaims(h, t);
    assert forall j :: WorkerOn(h', t, j) <==> WorkerOn(h, t, j);
    SealingOwn(h, h', t);
  }

  /** The poll loop stays with its task. */
  predicate HandStays(h: Host, m: Main) {
    && InHand(h.main).Some? && InHand(m).Some? && InHand(m).value.launch.task == InHand(h.main).value.launch.task
    && Ahead(m) == Ahead(h.main)
    && (Claiming(m) ==> Claiming(h.main))
  }

  lemma HandStaysKeeps(h: Host, m: Main)
    requires HostInv(h) && HandStays(h, m) && TaskInv(h.(main := m), InHand(m).value.launch.task)
    ensures HostInv(h.(main := m))
  {
    var h' := h.(main := m);
    OthersKept(h, h', InHand(m).value.launch.task);
    HeldAsBefore(h, h');
    assert forall r :: StillTrue(h, r) ==> StillTrue(h', r);
  }

  lemma MintedStays(h: Host, minted: Secret, h': Host)
    requires MintAnswered(h, true, minted, h')
    ensures HandStays(h, h'.main) && h' == h.(main := h'.main)
  {
  }

  /** A minted child for a task whose journal entry is still the one this launch wrote. */
  lemma MintedKeeps(h: Host, minted: Secret, h': Host)
    requires HostInv(h) && MintAnswered(h, true, minted, h') && h.main.record.launch.task !in h.evicted
    ensures HostInv(h')
  {
    var t0 := h.main.record.launch.task;
    assert TaskInv(h, t0);
    if h.main.next.ToBatch? { MintedInBatch(h, minted, h', t0); } else { MintedInRecovery(h, minted, h', t0); }
    MintedStays(h, minted, h');
    HandStaysKeeps(h, h'.main);
  }

  lemma RefusedOwn(h: Host, h': Host, t: TaskId)
    requires h.main.Minting? && t == h.main.record.launch.task && TaskInv(h, t) && MintAnswered(h, false, 0, h')
    ensures TaskInv(h', t)
  {
    assert MainOn(h, t);
    if t !in h.evicted { MintingClaims(h, t); }
    assert forall j :: WorkerOn(h', t, j) <==> WorkerOn(h, t, j);
    SealingOwn(h, h', t);
  }

  /** A refused mint ends the task without a child, and gives the broker back if the task had it. */
  lemma RefusedKeeps(h: Host, h': Host)
    requires HostInv(h) && MintAnswered(h, false, 0, h')
    ensures HostInv(h')
  {
    var t0 := h.main.record.launch.task;
    assert TaskInv(h, t0);
    RefusedOwn(h, h', t0);
    OthersKept(h, h', t0);
    RefusedHolds(h, h');
  }

  lemma RefusedHolds(h: Host, h': Host)
    requires BrokerHeldOnce(h) && RecoverySound(h) && MintAnswered(h, false, 0, h') && MainSound(h)
    ensures BrokerHeldOnce(h') && RecoverySound(h')
  {
    assert forall j :: Holding(h', j) <==> Holding(h, j);
    if h.main.next.ToBatch? && h.main.record.state == J.Received { assert Claiming(h.main); }
  }

  // ---------------------------------------------------------------- all of them

  lemma MainStepKeeps(h: Host, h': Host)
    requires HostInv(h) && MainStep(h, h')
    ensures HostInv(h')
  {
    if Crashes(h, h') { CrashKeeps(h, h'); }
    else if Boots(h, h') { BootKeeps(h, h'); }
    else if Recovers(h, h') { RecoverKeeps(h, h'); }
    else if Drops(h, h') { LoopKeeps(h, h'); }
    else if LaunchesKnown(h, h') { LaunchKnownKeeps(h, h'); }
    else if LaunchesNew(h, h') { LaunchNewKeeps(h, h'); }
    else if CancelsUnknown(h, h') { CancelUnknownKeeps(h, h'); }
    else if HandsOver(h, h') { HandOverKeeps(h, h'); }
    else if MainSeals(h, h') { MainSealKeeps(h, h'); }
    else { MainCloseKeeps(h, h'); }
  }

  lemma EndKeeps(h: Host, k: nat, h': Host, r: J.Record)
    requires HostInv(h) && k in h.workers && !h.workers[k].Supervising? && Terminated(r)
    requires r.launch.task == TaskOf(h.workers[k]) && h' == h.(workers := h.workers[k := Supervising(r, Sealing, true)])
    ensures HostInv(h')
  {
    var w := Supervising(r, Sealing, true);
    assert TaskInv(h, TaskOf(w));
    EndOwn(h, k, w, h');
    WorkerMoveKeeps(h, k, w, h');
  }

  lemma WorkerStepKeeps(h: Host, k: nat, h': Host)
    requires HostInv(h) && WorkerStep(h, k, h')
    ensures HostInv(h')
  {
    if body :| Ends(h, k, body, h') { EndKeeps(h, k, h', Ended(h.workers[k].record, body)); }
    else if WorkerSeals(h, k, h') { WorkerSealKeeps(h, k, h'); }
    else if WorkerCloses(h, k, h') { WorkerCloseKeeps(h, k, h'); }
    else { AbortKeeps(h, k, h'); }
  }

  lemma WorkerAnswerKeeps(h: Host, k: nat, ok: bool, h': Host)
    requires k in h.workers && (h.workers[k].Supervising? ==> h.workers[k].phase == Sending)
    requires HostInv(h) && WorkerAnswered(h, k, ok, h')
    ensures HostInv(h')
  {
    var w := h.workers[k];
    assert TaskInv(h, TaskOf(w));
    if w.Accepting? && ok {
      StartOwn(h, k, Running(w.record), h');
      WorkerMoveKeeps(h, k, Running(w.record), h');
    } else if w.Accepting? {
      EndKeeps(h, k, h', h'.workers[k].record);
    } else if ok {
      ConfirmOwn(h, k, w.(phase := Closing), h');
      WorkerMoveKeeps(h, k, w.(phase := Closing), h');
    }
  }
}
