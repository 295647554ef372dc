/** What every step of one broker keeps, task by task. */
module BrokerInvariant {
  import opened Wire
  import opened Ledger
  import opened LedgerRuns
  import opened Broker
  import J = Journal

  function TaskOf(w: Worker): TaskId { w.record.launch.task }

  /** The record the poll loop is busy with. */
  function InHand(m: Main): Option<J.Record> {
    match m
    case Minting(r, _) => Some(r)
    case Minted(r, _) => Some(r)
    case Settling(r, _, _) => Some(r)
    case _ => None
  }

  predicate MainOn(h: Host, t: TaskId) {
    InHand(h.main).Some? && InHand(h.main).value.launch.task == t
  }

  predicate WorkerOn(h: Host, t: TaskId, k: nat) {
    k in h.workers && TaskOf(h.workers[k]) == t
  }

  predicate Terminated(r: J.Record) {
    r.state == J.Terminal && r.terminal.Some? && IsTerminalBody(r.terminal.value, r.launch.task)
  }

  predicate Journalled(h: Host, t: TaskId, state: J.RecordState) {
    t in h.journal && h.journal[t].state == state
  }

  /** A terminal is on the wire only once it is durable, and closed only once the daemon confirmed it. */
  predicate PhaseSound(h: Host, r: J.Record, phase: Phase) {
    && Terminated(r)
    && (phase != Sealing ==> (r.launch.task, r.terminal.value) in h.durable)
    && (phase == Closing ==> r.launch.task in h.confirmed)
  }

  predicate WorkerSound(h: Host, w: Worker) {
    match w
    case Supervising(r, phase, _) => PhaseSound(h, r, phase)
    case _ =>
      && w.record.state == J.Accepted && w.record.child.Some?
      && TaskOf(w) !in h.evicted && Journalled(h, TaskOf(w), J.Accepted)
  }

  predicate MainSound(h: Host) {
    match h.main
    case Minting(r, next) =>
      (r.state == J.Received && r.child.None? && r.terminal.None?) || (Terminated(r) && next.ToBatch?)
    case Minted(r, _) =>
      && r.child.Some?
      && (Terminated(r) || (r.state == J.Received && r.terminal.None? &&
            r.launch.task !in h.evicted && Journalled(h, r.launch.task, J.Received)))
    case Settling(r, phase, _) => PhaseSound(h, r, phase)
    case _ => true
  }

  /** A terminal body somebody could still make durable or send, or already has, for this task. */
  ghost predicate Claimed(h: Host, t: TaskId, body: Body) {
    || (t, body) in h.durable
    || (t in h.journal && h.journal[t].state == J.Terminal && h.journal[t].terminal == Some(body))
    || (MainOn(h, t) && InHand(h.main).value.terminal == Some(body))
    || (exists k :: WorkerOn(h, t, k) && h.workers[k].Supervising? && h.workers[k].record.terminal == Some(body))
  }

  /** Until its tombstone is evicted, a task has one terminal body, whoever holds it. */
  ghost predicate OneBody(h: Host, t: TaskId) {
    forall x, y :: Claimed(h, t, x) && Claimed(h, t, y) ==> x == y
  }

  ghost predicate Unattended(h: Host, t: TaskId) { forall k :: !WorkerOn(h, t, k) }

  ghost predicate NothingDurable(h: Host, t: TaskId) { forall body :: (t, body) !in h.durable }

  predicate MainOnlySeals(h: Host, t: TaskId) {
    MainOn(h, t) ==> h.main.Settling? && h.main.phase == Sealing
  }

  /** Who may be busy with a task, by what the journal says of it. */
  ghost predicate Calm(h: Host, t: TaskId) {
    && OneBody(h, t)
    && (t !in h.journal ==> Unattended(h, t) && NothingDurable(h, t) && MainOnlySeals(h, t))
    && (Journalled(h, t, J.Received) ==>
          && Unattended(h, t) && NothingDurable(h, t)
          && (MainOn(h, t) ==> InHand(h.main).value.state == J.Received || MainOnlySeals(h, t)))
    && (Journalled(h, t, J.Accepted) ==>
          && NothingDurable(h, t) && MainOnlySeals(h, t) && (MainOn(h, t) ==> Unattended(h, t))
          && (forall k :: WorkerOn(h, t, k) && h.workers[k].Supervising? ==> h.workers[k].phase == Sealing)
          && (forall j, k :: WorkerOn(h, t, j) && WorkerOn(h, t, k) ==> j == k))
    && (Journalled(h, t, J.Terminal) || Journalled(h, t, J.Delivered) ==>
          && (MainOn(h, t) ==> InHand(h.main).value.state == J.Terminal)
          && (forall k :: WorkerOn(h, t, k) ==> h.workers[k].Supervising?))
  }

  ghost predicate TaskInv(h: Host, t: TaskId) {
    && (t in h.journal ==> t in h.put && J.ValidRecord(t, h.journal[t]))
    && (Journalled(h, t, J.Terminal) ==> Terminated(h.journal[t]))
    && (Journalled(h, t, J.Delivered) ==> t in h.confirmed)
    && (t in h.put ==> t in h.journal || t in h.evicted)
    && (t in h.evicted ==> t in h.confirmed) && (t in h.confirmed ==> t in h.put)
    && (forall body :: (t, body) in h.durable ==> t in h.put)
    && (forall k :: WorkerOn(h, t, k) ==> t in h.put && WorkerSound(h, h.workers[k]))
    && (MainOn(h, t) ==> MainSound(h))
    && (t !in h.evicted ==> Calm(h, t))
  }

  // ---------------------------------------------------------------- the whole process

  function Ahead(m: Main): Option<seq<J.Record>> {
    match m
    case Down => Some([])
    case Recovering(todo) => Some(todo)
    case Minting(_, ToRecovery(todo)) => Some(todo)
    case Settling(_, _, ToRecovery(todo)) => Some(todo)
    case _ => None
  }

  /** A record of the recovery snapshot is still what the journal says, unless it needs no recovery. */
  predicate StillTrue(h: Host, r: J.Record) {
    r.state == J.Delivered || (r.launch.task in h.journal && h.journal[r.launch.task] == r)
  }

  /** While the broker is down or recovers, nobody else is at work and the snapshot it walks stays true. */
  ghost predicate RecoverySound(h: Host) {
    Ahead(h.main).Some? ==>
      var todo := Ahead(h.main).value;
      && h.workers == map[] && h.active == None
      && (forall i :: 0 <= i < |todo| ==> StillTrue(h, todo[i]))
      && (forall i, j :: 0 <= i < j < |todo| ==> todo[i].launch.task < todo[j].launch.task)
      && (forall i :: 0 <= i < |todo| ==> !MainOn(h, todo[i].launch.task))
  }

  /** A worker that gives the broker back when it ends. */
  predicate Holding(h: Host, k: nat) {
    k in h.workers && (h.workers[k].Supervising? ==> h.workers[k].holds)
  }

  /** A fresh launch between its journal entry and its worker. */
  predicate Claiming(m: Main) {
    InHand(m).Some? && InHand(m).value.state == J.Received && (m.Minting? ==> m.next.ToBatch?)
  }

  /** At most one task has the broker, and `active` names it. */
  ghost predicate BrokerHeldOnce(h: Host) {
    && (forall k :: Holding(h, k) ==> h.active == Some(TaskOf(h.workers[k])) && !Claiming(h.main))
    && (forall j, k :: Holding(h, j) && Holding(h, k) ==> j == k)
    && (Claiming(h.main) ==> h.active == Some(InHand(h.main).value.launch.task))
  }

  ghost predicate HostInv(h: Host) {
    && (forall t :: TaskInv(h, t))
    && RecoverySound(h)
    && BrokerHeldOnce(h)
  }

  // ---------------------------------------------------------------- frames

  /** The step from `h` to `h'` is not about task `t`. */
  ghost predicate Unaffected(h: Host, h': Host, t: TaskId) {
    && (t in h'.journal <==> t in h.journal) && (t in h.journal ==> h'.journal[t] == h.journal[t])
    && (t in h'.put <==> t in h.put) && (t in h'.evicted <==> t in h.evicted)
    && (t in h'.confirmed <==> t in h.confirmed)
    && (forall body :: (t, body) in h'.durable <==> (t, body) in h.durable)
    && (forall k :: WorkerOn(h', t, k) <==> WorkerOn(h, t, k))
    && (forall k :: WorkerOn(h, t, k) ==> h'.workers[k] == h.workers[k])
    && (MainOn(h, t) || MainOn(h', t) ==> SameHand(h.main, h'.main))
  }

  /** The same record at the same point. */
  predicate SameHand(m: Main, m': Main) {
    match m
    case Minting(r, next) => m'.Minting? && m'.record == r && m'.next == next
    case Minted(r, _) => m'.Minted? && m'.record == r
    case Settling(r, phase, _) => m'.Settling? && m'.record == r && m'.phase == phase
    case _ => false
  }

  lemma UnaffectedClaims(h: Host, h': Host, t: TaskId, body: Body)
    requires Unaffected(h, h', t)
    ensures Claimed(h', t, body) <==> Claimed(h, t, body)
  {
  }

  lemma UnaffectedKeeps(h: Host, h': Host, t: TaskId)
    requires TaskInv(h, t) && Unaffected(h, h', t)
    ensures TaskInv(h', t)
  {
    forall body ensures Claimed(h', t, body) <==> Claimed(h, t, body) {
      UnaffectedClaims(h, h', t, body);
    }
  }

  /** An evicted tombstone frees its task from every rule but the bookkeeping. */
  lemma EvictedKeeps(h: Host, r: J.Record, gone: set<TaskId>, h': Host, t: TaskId)
    requires TaskInv(h, t) && PutsEvicting(h, r, gone, h') && t in gone
    ensures TaskInv(h', t)
  {
  }

  lemma PutsOthers(h: Host, r: J.Record, gone: set<TaskId>, h': Host, t: TaskId)
    requires PutsEvicting(h, r, gone, h') && t != r.launch.task
    requires TaskInv(h, t)
    ensures TaskInv(h', t)
  {
    if t in gone {
      EvictedKeeps(h, r, gone, h', t);
    } else {
      assert Unaffected(h, h', t);
      UnaffectedKeeps(h, h', t);
    }
  }
}
