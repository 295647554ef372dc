/** The daemon's tables, updated in place one transaction at a time; each method is one transaction of the ledger. */
module Database {
  import opened Wire
  import opened Ledger
  import opened LedgerRuns
  import opened LedgerInvariant
  import opened Inbox
  import opened WaitInbox
  import Mail
  import W = WaitCursor

  /** The sweep as one value: each listed task expired in turn. */
  function ExpireAll(s: Store, now: int, due: seq<TaskId>): Store {
    if due == [] then s else Expire(ExpireAll(s, now, due[..|due| - 1]), now, due[|due| - 1]).0
  }

  /** The purges, in the order they run. */
  function Purged(s: Store, now: int): Store {
    var s1 := PurgeMail(s, now);
    var s2 := s1.(agents := PurgeAgents(s1.agents, now));
    PurgeTasks(PurgeDeliveries(s2), now)
  }

  /** One transaction's writes: the task's row, and the letter if there is one. */
  function WithTask(s: Store, now: int, id: TaskId, t: Task, letter: Letter): Option<Store>
    requires !letter.NoParty?
  {
    var s1 := s.(tasks := s.tasks[id := t]);
    if letter.NobodyToTell? then Some(s1)
    else Post(s1, now, letter.from, letter.to.scope, Some(letter.to.agent), letter.body, Some(letter.from), Some(id))
  }

  function Touched(r: Mail.Receipt, touch: bool, noticed: bool): Mail.Receipt {
    if !touch then r else if noticed then r.(noticed := true) else r.(read := true)
  }

  function Marked(m: Mail.Store, agent: Session, ids: set<nat>, noticed: bool): Mail.Store {
    if noticed then Mail.MarkNoticed(m, agent, ids) else Mail.MarkRead(m, agent, ids)
  }

  /** What the overdue query would answer: exactly these tasks. */
  ghost predicate StillDue(s: Store, now: int, due: seq<TaskId>) {
    forall id :: id in due <==> Overdue(s, now, id)
  }

  predicate Distinct(due: seq<TaskId>) {
    forall i, j :: 0 <= i < j < |due| ==> due[i] != due[j]
  }

  class Tables {
    var clock: int
    var agents: Agents
    var tasks: map<TaskId, Task>
    var log: seq<Message>
    var kept: set<nat>
    var receipts: map<(nat, Session), Mail.Receipt>

    function State(): Store
      reads this
    {
      Store(clock, agents, tasks, Mail.Store(log, kept, receipts))
    }

    ghost predicate Valid()
      reads this
    {
      StoreInv(State())
    }

    constructor (now: int)
      requires now > 0
      ensures Valid() && State() == Store(now, map[], map[], Mail.Store([], {}, map[]))
    {
      clock, agents, tasks := now, map[], map[];
      log, kept, receipts := [], {}, map[];
    }

    // -------------------------------------------------------------- mail

    method LiveRecipients(now: int, scope: Scope, except: Session) returns (out: set<Session>)
      ensures out == LiveAgents(State(), now, scope, except)
    {
      out := {};
      var rest := agents.Keys;
      while rest != {}
        invariant rest <= agents.Keys
        invariant forall row | row in agents && row !in rest && row.scope == scope && Live(agents[row], now) ::
          row.agent == except || row.agent in out
        invariant forall a :: a in out ==>
          Address(scope, a) in agents && a != except && Live(agents[Address(scope, a)], now)
        decreases rest
      {
        var row :| row in rest;
        rest := rest - {row};
        if row.scope == scope && row.agent != except && Live(agents[row], now) { out := out + {row.agent}; }
      }
      forall a | a in out ensures a in LiveAgents(State(), now, scope, except) {
        assert Address(scope, a) in agents;
      }
    }

    /** One untouched delivery for each target. */
    method Deliver(id: nat, targets: set<Session>)
      modifies this`receipts
      ensures receipts == old(receipts) + Mail.Deliveries(id, targets)
    {
      var rest := targets;
      while rest != {}
        invariant rest <= targets
        invariant receipts == old(receipts) + Mail.Deliveries(id, targets - rest)
        decreases rest
      {
        var a :| a in rest;
        Mail.OneMoreDelivery(id, targets - rest, a);
        assert targets - rest + {a} == targets - (rest - {a});
        receipts := receipts[(id, a) := Mail.Receipt(false, false)];
        rest := rest - {a};
      }
      assert targets - {} == targets;
    }

    /** One message and its deliveries, or nothing when the recipient has no row. */
    method SendToScope(now: int, from: Address, toScope: Scope, to: Option<Session>, body: Body,
                       replyTo: Option<Address>, task: Option<TaskId>) returns (ok: bool)
      modifies this`log, this`kept, this`receipts
      ensures Post(old(State()), now, from, toScope, to, body, replyTo, task) == if ok then Some(State()) else None
      ensures !ok ==> State() == old(State())
    {
      var targets: set<Session>;
      if to.Some? {
        if Address(toScope, to.value) !in agents { return false; }
        targets := {to.value};
      } else {
        targets := LiveRecipients(now, toScope, from.agent);
      }
      var id := |log|;
      log := log + [Message(toScope, from.agent, Mail.Stamped(from, toScope), to, body, now, replyTo, task)];
      kept := kept + {id};
      Deliver(id, targets);
      return true;
    }

    /** A task's new row and the letter that goes with it; a letter nobody can receive takes the row back. */
    method WriteTask(now: int, id: TaskId, t: Task, letter: Letter) returns (ok: bool)
      requires !letter.NoParty?
      modifies this`tasks, this`log, this`kept, this`receipts
      ensures WithTask(old(State()), now, id, t, letter) == if ok then Some(State()) else None
      ensures !ok ==> State() == old(State())
    {
      var before := tasks;
      tasks := tasks[id := t];
      if letter.NobodyToTell? { return true; }
      var to := letter.to;
      ok := SendToScope(now, letter.from, to.scope, Some(to.agent), letter.body, Some(letter.from), Some(id));
      if !ok { tasks := before; }
    }

    // -------------------------------------------------------------- eyes tasks

    /** Reserve the broker the pick query answered with, queue the task and mail its launch, or change nothing. */
    method AssignEyesTask(now: int, req: Request, id: TaskId, top: Option<Address>) returns (err: Option<Error>)
      requires Valid() && clock <= now && Fresh(State(), id) && IsTopRow(State(), now, req.runtime, top)
      modifies this
      ensures Valid() && (State(), err) == Assign(old(State()).(clock := now), now, req, id, top)
    {
      ClockKeepsInv(Daemon(State(), Resting), now);
      SameTopRow(State(), State().(clock := now), now, req.runtime, top);
      clock := now;
      AssignKeepsInv(Daemon(State(), Resting), now, req, id, top);
      err := AssignRow(now, req, id, top);
    }

    method AssignRow(now: int, req: Request, id: TaskId, top: Option<Address>) returns (err: Option<Error>)
      requires top.Some? ==> top.value in agents
      modifies this`tasks, this`log, this`kept, this`receipts
      ensures (State(), err) == Assign(old(State()), now, req, id, top)
    {
      if req.requester !in agents { return Some(NoAgent); }
      if agents[req.requester].origin == Relay { return Some(RelayAuth); }
      if !ValidRuntime(req.runtime) { return Some(BadRuntime); }
      var pick := PickLauncher(State(), req.runtime, top);
      if pick.NotPicked? { return Some(pick.error); }
      var runtime := Some(req.runtime);
      if req.runtime == "" { runtime := DefaultProvider(agents[pick.row].caps); }
      if runtime.None? { return Some(NoProvider); }
      var deadline := EyesDeadline(req.deadlineS);
      var t := Task(
        req.requester, pick.row, runtime.value, Queued, false, deadline, now, now, Progress(0, "", 0, 0), 0);
      var ok := WriteTask(now, id, t, Letter(req.requester, pick.row,
        LaunchBody(id, runtime.value, req.brief, req.requester, deadline, req.overhead)));
      assert ok;  // the pick has just read the broker's row
      return None;
    }

    /** The one write path for a task's state: the row and the mail it implies, or neither. */
    method MoveRow(now: int, id: TaskId, to: TaskState, a: Actor, body: Body) returns (reply: Reply)
      modifies this`tasks, this`log, this`kept, this`receipts
      ensures (State(), reply) == Move(old(State()), now, id, to, a, body)
    {
      if to == Queued { return Refused(BadTransition); }
      if id !in tasks { return Refused(UnknownTask); }
      var t := tasks[id];
      var role := RoleOf(State(), id, t, a);
      var from := Edges(to, role);
      if from.None? { return Refused(NotYourTask); }
      if t.state == to { return Ok(false); }
      if t.state == Cancelled && AcksCancel(State(), id, t, role, to) {
        tasks := tasks[id := t.(cancelAcked := true)];
        return Ok(false);
      }
      if t.state !in from.value { return Refused(BadTransition); }
      var letter := EyesMail(State(), id, t, role, a, body);
      if letter.NoParty? { return Refused(letter.error); }
      MovesWithLetter(State(), now, id, to, a, body);
      var ok := WriteTask(now, id, t.(state := to, updatedAt := now), letter);
      return if ok then Ok(true) else Refused(NoAgent);
    }

    method MoveEyesTask(now: int, id: TaskId, to: TaskState, a: Actor, body: Body) returns (reply: Reply)
      requires Valid() && clock <= now && Speaks(body, id, to)
      modifies this
      ensures Valid() && (State(), reply) == Move(old(State()).(clock := now), now, id, to, a, body)
    {
      ClockKeepsInv(Daemon(State(), Resting), now);
      clock := now;
      MoveKeepsInv(Daemon(State(), Resting), now, id, to, a, body);
      reply := MoveRow(now, id, to, a, body);
    }

    // -------------------------------------------------------------- progress

    method WriteEyesProgress(now: int, id: TaskId, next: Progress)
      requires id in tasks
      modifies this`tasks, this`agents
      ensures State() == Sampled(old(State()), now, id, next)
    {
      var child := ChildRow(id, tasks[id]);
      tasks := tasks[id := tasks[id].(progress := next, heartbeatAt := now)];
      if child in agents && agents[child].status != Gone {
        var a := agents[child];
        agents := agents[child := a.(lastSeen := now, status := if a.status == Idle then Active else a.status)];
      }
    }

    /** Stamp one sample and mail the requester a throttled copy; an error takes the sample back. */
    method SampleRow(now: int, id: TaskId, a: Actor, turns: int, tool: string) returns (reply: Reply)
      modifies this`tasks, this`agents, this`log, this`kept, this`receipts
      ensures (State(), reply) == RecordProgress(old(State()), now, id, a, turns, tool)
    {
      if id !in tasks { return Refused(UnknownTask); }
      var t := tasks[id];
      var role := RoleOf(State(), id, t, a);
      if role != RoleChild && role != RoleLauncher { return Refused(NotYourTask); }
      if t.state != Queued && t.state != Accepted { return Refused(TaskNotLive); }
      var tasksBefore, agentsBefore := tasks, agents;
      var (next, due) := NextProgress(t.progress, turns, tool, now);
      WriteEyesProgress(now, id, next);
      if !due { return Ok(false); }
      var letter := EyesMail(State(), id, t, role, a, ProgressBody(id, next.turns, next.tool, now - t.createdAt));
      assert letter.Letter?;  // the actor's own row has just been read
      var to := letter.to;
      var sent := SendToScope(now, letter.from, to.scope, Some(to.agent), letter.body, Some(letter.from), Some(id));
      if !sent {
        tasks, agents := tasksBefore, agentsBefore;
        return Refused(NoAgent);
      }
      return Ok(true);
    }

    method RecordEyesProgress(now: int, id: TaskId, a: Actor, turns: int, tool: string) returns (reply: Reply)
      requires Valid() && clock <= now
      modifies this
      ensures Valid() && (State(), reply) == RecordProgress(old(State()).(clock := now), now, id, a, turns, tool)
    {
      ClockKeepsInv(Daemon(State(), Resting), now);
      clock := now;
      ProgressKeepsInv(Daemon(State(), Resting), now, id, a, turns, tool);
      reply := SampleRow(now, id, a, turns, tool);
    }

    // -------------------------------------------------------------- housekeeping

    /** One task of the sweep: counted when it was failed, or when its unanswered cancel was acknowledged. */
    method ExpireTask(now: int, id: TaskId) returns (settled: bool)
      requires Valid() && clock == now && id in tasks
      modifies this
      ensures Valid() && clock == now && State() == Expire(old(State()), now, id).0
      ensures var reply := Expire(old(State()), now, id).1;
        settled <==> reply == Ok(true) || (reply.Ok? && old(tasks)[id].state == Cancelled)
    {
      var state := tasks[id].state;
      var reply := MoveEyesTask(now, id, Failed, System, FailedBody(id, "deadline exceeded"));
      settled := reply == Ok(true) || (reply.Ok? && state == Cancelled);
    }

    /**
     * Settle every task the overdue query listed, one transaction each. Each of them is released
     * and counted, whichever rows are gone, and no task is overdue afterwards.
     */
    method ExpireEyesTasks(now: int, due: seq<TaskId>) returns (n: nat)
      requires Valid() && clock <= now && Distinct(due)
      requires StillDue(State(), now, due)
      modifies this
      ensures Valid() && clock == now && State() == ExpireAll(old(State()).(clock := now), now, due)
      ensures StillDue(State(), now, [])
      ensures n == |due|
    {
      ClockKeepsInv(Daemon(State(), Resting), now);
      clock := now;
      n := 0;
      for i := 0 to |due|
        invariant Valid() && clock == now && n == i
        invariant State() == ExpireAll(old(State()).(clock := now), now, due[..i])
        invariant StillDue(State(), now, due[i..])
      {
        ExpireOne(State(), now, due, i);
        assert due[..i + 1][..i] == due[..i];
        var settled := ExpireTask(now, due[i]);
        if settled { n := n + 1; }
      }
      assert due[..|due|] == due;
    }

    /** Sweep first, then the purges: every task that keeps its broker keeps the broker's row. */
    method Housekeep(now: int, due: seq<TaskId>)
      requires Valid() && clock <= now && Distinct(due)
      requires StillDue(State(), now, due)
      modifies this
      ensures Valid() && State() == Purged(ExpireAll(old(State()).(clock := now), now, due), now)
      ensures StillDue(State(), now, [])
    {
      var n := ExpireEyesTasks(now, due);
      PurgesKeepInv(State(), now);
      DeleteMessages(now);
      DeleteRows(now);
    }

    method DeleteMessages(now: int)
      modifies this`kept
      ensures State() == PurgeMail(old(State()), now)
    {
      var week := now - 7 * Mail.DAY;
      kept := set id | id in kept && !(id < |log| && log[id].createdAt < week && Mail.ReadByAll(State().mail, id));
      kept := set id | id in kept && !(id < |log| && log[id].createdAt < now - 30 * Mail.DAY);
    }

    method DeleteRows(now: int)
      modifies this`receipts, this`agents, this`tasks
      ensures State() == PurgeTasks(PurgeDeliveries(old(State()).(agents := PurgeAgents(old(agents), now))), now)
    {
      receipts := map k | k in receipts && k.0 in kept :: receipts[k];
      agents := map row | row in agents && agents[row].lastSeen >= now - AGENT_TTL :: agents[row];
      var ids := set row | row in agents :: row.agent;
      receipts := map k | k in receipts && k.1 in ids :: receipts[k];
      tasks := map id | id in tasks && tasks[id].updatedAt >= now - TASK_TTL :: tasks[id];
    }

    // -------------------------------------------------------------- agent rows

    method RegisterAgent(now: int, row: Address, parent: Option<Session>)
      modifies this`agents
      ensures agents == Register(old(agents), now, row, parent)
    {
      if row in agents {
        agents := agents[row := agents[row].(status := Active, lastSeen := now)];
      } else {
        agents := agents[row := Agent(NoKind, Local, Active, now, now, None, {}, parent)];
      }
    }

    /** `prior` is what the relay-first lookup of the session answered. */
    method LauncherRow(now: int, row: Address, caps: set<Cap>, secret: Secret, prior: Option<Address>)
      returns (err: Option<Error>)
      requires prior == FirstRow(agents, row.agent)
      modifies this`agents
      ensures (agents, err) == RegisterRelay(old(agents), now, row, caps, secret)
    {
      var hash := Some(secret);
      FirstRowAnswers(agents, row.agent);
      assert Address(row.scope, row.agent) == row;
      if prior.Some? {
        var a := agents[prior.value];
        if prior.value.scope != row.scope || a.origin != Relay || (a.kind != NoKind && a.kind != Launcher) {
          return Some(ForeignSession);
        }
        if a.secret != Some(secret) { return Some(RelayAuth); }
        hash := a.secret;
      }
      RegisterAgent(now, row, None);
      agents := agents[row := agents[row].(kind := Launcher, origin := Relay, caps := caps, secret := hash)];
      assert RegisterRelay(old(agents), now, row, caps, secret).0 == agents;
      return None;
    }

    /** A launcher registers over the relay: a session id keeps naming one row, bound to its first secret. */
    method RegisterLauncher(now: int, row: Address, caps: set<Cap>, secret: Secret, prior: Option<Address>)
      returns (err: Option<Error>)
      requires Valid() && clock <= now && prior == FirstRow(agents, row.agent)
      modifies this`clock, this`agents
      ensures Valid() && clock == now && (agents, err) == RegisterRelay(old(agents), now, row, caps, secret)
    {
      var op := RelayRow(row, caps, secret);
      RowOpsEvolve(State(), now, op);
      RowsKeepInv(Daemon(State(), Resting), RowsAfter(State(), now, op), now);
      err := LauncherRow(now, row, caps, secret, prior);
      clock := now;
    }

    method ChildIdentity(now: int, id: TaskId, launcher: Session, secret: Secret, minted: Secret)
      returns (err: Option<Error>)
      modifies this`agents
      ensures agents == Reissue(old(State()), now, id, launcher, secret, minted)
      ensures err == ReissueRefused(old(State()), id, launcher, secret)
    {
      err := ReissueRefused(State(), id, launcher, secret);
      if err.Some? { return; }
      var child := ChildRow(id, tasks[id]);
      RegisterAgent(now, child, None);
      agents := agents[child := agents[child].(kind := EyesChild, origin := Relay, secret := Some(minted))];
    }

    /** Mint the child of an unsettled task, with a fresh secret, on its own launcher's authority. */
    method ReissueEyesChild(now: int, id: TaskId, launcher: Session, secret: Secret, minted: Secret)
      returns (err: Option<Error>)
      requires Valid() && clock <= now
      modifies this`clock, this`agents
      ensures Valid() && clock == now && agents == Reissue(old(State()), now, id, launcher, secret, minted)
      ensures err == ReissueRefused(old(State()), id, launcher, secret)
    {
      var op := ReissueRow(id, launcher, secret, minted);
      RowOpsEvolve(State(), now, op);
      RowsKeepInv(Daemon(State(), Resting), RowsAfter(State(), now, op), now);
      err := ChildIdentity(now, id, launcher, secret, minted);
      clock := now;
    }

    // -------------------------------------------------------------- inboxes

    /** The two timestamp updates: one row at a time. */
    method MarkRows(agent: Session, ids: seq<nat>, noticed: bool)
      requires forall id :: id in ids ==> (id, agent) in receipts
      modifies this`receipts
      ensures State().mail == Marked(old(State()).mail, agent, (set id | id in ids), noticed)
    {
      for i := 0 to |ids|
        invariant receipts.Keys == old(receipts).Keys
        invariant forall k :: k in receipts ==>
          receipts[k] == Touched(old(receipts)[k], k.1 == agent && k.0 in ids[..i], noticed)
      {
        var k := (ids[i], agent);
        receipts := receipts[k := Touched(receipts[k], true, noticed)];
        assert forall id :: id in ids[..i + 1] <==> id in ids[..i] || id == ids[i];
      }
      assert ids[..|ids|] == ids;
    }

    /** The one transaction of a read: collect, then mark all that was collected. */
    method DrainRows(scope: Scope, agent: Session, skipLedger: bool) returns (out: seq<Message>)
      modifies this`receipts
      ensures State().mail == Mail.MarkRead(old(State()).mail, agent, UnreadSet(old(State()).mail, scope, agent))
      ensures out == HandedBack(log, UnreadIds(old(State()).mail, scope, agent), skipLedger)
    {
      var seen;
      seen, out := CollectRows(log, UnreadIds(State().mail, scope, agent), skipLedger);
      SameSets(State().mail, scope, agent);
      MarkRows(agent, seen, false);
    }

    /**
     * Every unread delivery of the inbox, oldest first, each marked read; ledger mail is consumed but not shown to a
     * broker.
     */
    method Read(now: int, scope: Scope, agent: Session, skipLedger: bool) returns (out: seq<Message>)
      requires Valid() && clock <= now
      modifies this`clock, this`receipts
      ensures Valid()
      ensures State() == old(State()).(clock := now, mail := MailAfter(old(State()), now, ReadMail(scope, agent)))
      ensures out == HandedBack(log, UnreadIds(old(State()).mail, scope, agent), skipLedger)
      ensures var shown := ShownIds(old(State()).mail, scope, agent, skipLedger);
        |out| == |shown| && forall k :: 0 <= k < |out| ==> out[k] == log[shown[k]]
    {
      MailOpKeepsInv(Daemon(State(), Resting), now, ReadMail(scope, agent));
      ReadShows(State().mail, scope, agent, skipLedger);
      out := DrainRows(scope, agent, skipLedger);
      clock := now;
    }

    /** The largest delivered message id, read or unread; zero when there is none. */
    method HighWater(scope: Scope, agent: Session) returns (high: nat)
      ensures forall id: nat :: Mail.Delivered(State().mail, scope, agent, id) ==> id < high
      ensures high > 0 ==> Mail.Delivered(State().mail, scope, agent, high - 1)
      ensures W.IsHighWater(BoxOf(State().mail, scope, agent), high)
    {
      high := |log|;
      while high > 0 && !Mail.Delivered(State().mail, scope, agent, high - 1)
        invariant forall id: nat :: Mail.Delivered(State().mail, scope, agent, id) ==> id < high
      {
        high := high - 1;
      }
      HighWaterIs(State().mail, scope, agent, high);
    }

    /** The unread set above a cursor and the senders it names, each once; nothing is written. */
    method PeekUnread(scope: Scope, agent: Session, afterId: nat, skipLedger: bool, name: Message -> string)
      returns (ids: seq<nat>, froms: seq<string>)
      ensures forall id: nat :: id in ids <==>
        Mail.Unread(State().mail, scope, agent, id) && id + 1 > afterId && (skipLedger ==> log[id].task.None?)
      ensures Ascending(ids)
      ensures !skipLedger ==> (ids != [] <==> W.SeesMail(BoxOf(State().mail, scope, agent), afterId))
      ensures forall i, j :: 0 <= i < j < |froms| ==> froms[i] != froms[j]
      ensures InLog(log, ids) && forall f :: f in froms <==> exists k :: 0 <= k < |ids| && name(log[ids[k]]) == f
    {
      PeekedAre(State().mail, scope, agent, afterId, skipLedger);
      var rows := PeekedIds(State().mail, scope, agent, afterId, skipLedger);
      ids, froms := [], [];
      for i := 0 to |rows|
        invariant ids == rows[..i] && InLog(log, ids)
        invariant forall j, k :: 0 <= j < k < |froms| ==> froms[j] != froms[k]
        invariant (set f | f in froms) == Names(log, name, ids)
      {
        ids := ids + [rows[i]];
        if name(log[rows[i]]) !in froms { froms := froms + [name(log[rows[i]])]; }
        NamesAppend(log, name, rows[..i], rows[i]);
      }
      assert rows[..|rows|] == rows;
      assert forall f :: f in froms <==> f in Names(log, name, ids);
    }

    method NoticeRows(scope: Scope, agent: Session, name: Message -> string)
      returns (out: seq<Notice>, ghost directs: nat)
      modifies this`receipts
      ensures State().mail == Mail.MarkNoticed(old(State()).mail, agent, UnnoticedSet(old(State()).mail, scope, agent))
      ensures Announces(log, name, UnnoticedIds(old(State()).mail, scope, agent), out, directs)
    {
      var ids := UnnoticedIds(State().mail, scope, agent);
      out, directs := Announce(log, ids, name);
      SameSets(State().mail, scope, agent);
      MarkRows(agent, ids, true);
    }

    /**
     * One notice per direct sender and then one per broadcast, covering exactly what was neither
     * noticed nor read, and marking it so.
     */
    method Notices(now: int, scope: Scope, agent: Session, name: Message -> string)
      returns (out: seq<Notice>, ghost directs: nat)
      requires Valid() && clock <= now
      modifies this`clock, this`receipts
      ensures Valid()
      ensures State() == old(State()).(clock := now, mail := MailAfter(old(State()), now, NoticeMail(scope, agent)))
      ensures Announces(log, name, UnnoticedIds(old(State()).mail, scope, agent), out, directs)
    {
      MailOpKeepsInv(Daemon(State(), Resting), now, NoticeMail(scope, agent));
      out, directs := NoticeRows(scope, agent, name);
      clock := now;
    }
  }

  lemma NamesAppend(log: seq<Message>, name: Message -> string, ids: seq<nat>, id: nat)
    requires InLog(log, ids) && id < |log|
    ensures Names(log, name, ids + [id]) == Names(log, name, ids) + {name(log[id])}
  {
    var all := ids + [id];
    forall f | f in Names(log, name, ids) ensures f in Names(log, name, all) {
      var k :| 0 <= k < |ids| && name(log[ids[k]]) == f;
      assert all[k] == ids[k];
    }
    assert all[|ids|] == id;
  }

  /** The pick's query does not read the clock the store carries. */
  lemma SameTopRow(s: Store, s': Store, now: int, runtime: string, top: Option<Address>)
    requires IsTopRow(s, now, runtime, top) && s' == s.(clock := s'.clock)
    ensures IsTopRow(s', now, runtime, top)
  {
    forall row ensures Candidate(s', now, row) <==> Candidate(s, now, row) {
    }
  }

  /** A move that may leave its state is the write of its row and letter, or nothing. */
  lemma MovesWithLetter(s: Store, now: int, id: TaskId, to: TaskState, a: Actor, body: Body)
    requires to != Queued && id in s.tasks && s.tasks[id].state != to
    requires var from := Edges(to, RoleOf(s, id, s.tasks[id], a)); from.Some? && s.tasks[id].state in from.value
    requires !(s.tasks[id].state == Cancelled && AcksCancel(s, id, s.tasks[id], RoleOf(s, id, s.tasks[id], a), to))
    requires !EyesMail(s, id, s.tasks[id], RoleOf(s, id, s.tasks[id], a), a, body).NoParty?
    ensures var letter := EyesMail(s, id, s.tasks[id], RoleOf(s, id, s.tasks[id], a), a, body);
      var written := WithTask(s, now, id, s.tasks[id].(state := to, updatedAt := now), letter);
      Move(s, now, id, to, a, body) == if written.Some? then (written.value, Ok(true)) else (s, Refused(NoAgent))
  {
  }

  lemma FirstRowAnswers(agents: Agents, session: Session)
    ensures var row := FirstRow(agents, session);
      if row.Some? then row.value in agents && row.value.agent == session
      else forall other :: other in agents ==> other.agent != session
  {
  }

  /** An overdue task's expiry is always counted: it is moved, or its unanswered cancel is acknowledged. */
  lemma ExpireOne(s: Store, now: int, due: seq<TaskId>, i: nat)
    requires StoreInv(s) && Distinct(due) && i < |due| && StillDue(s, now, due[i..])
    ensures var (s', reply) := Expire(s, now, due[i]);
      && due[i] in s.tasks && reply == (if s.tasks[due[i]].state == Cancelled then Ok(false) else Ok(true))
      && StillDue(s', now, due[i + 1..])
  {
    var id := due[i];
    assert id in due[i..];
    assert Overdue(s, now, id);
    ExpireSettles(s, now, id);
    MoveEffect(s, now, id, Failed, System, FailedBody(id, "deadline exceeded"));
    assert LauncherPresent(s, s.tasks[id]);
    forall other ensures other in due[i + 1..] <==> other in due[i..] && other != id {
    }
    var s' := Expire(s, now, id).0;
    forall other ensures Overdue(s', now, other) <==> Overdue(s, now, other) && other != id {
      assert other in s'.tasks <==> other in s.tasks;
    }
  }

  lemma PurgesKeepInv(s: Store, now: int)
    requires StoreInv(s) && s.clock == now && StillDue(s, now, [])
    ensures StoreInv(Purged(s, now)) && StillDue(Purged(s, now), now, [])
  {
    var d := Daemon(s, Swept(now));
    HouseOpKeepsInv(d, now, MailPurge);
    var d1 := At(HouseAfter(d, now, MailPurge), now);
    HouseOpKeepsInv(d1, now, AgentPurge);
    var d2 := At(HouseAfter(d1, now, AgentPurge), now);
    HouseOpKeepsInv(d2, now, DeliveryPurge);
    var d3 := At(HouseAfter(d2, now, DeliveryPurge), now);
    HouseOpKeepsInv(d3, now, TaskPurge);
    assert At(HouseAfter(d3, now, TaskPurge), now).db == Purged(s, now);
  }
}
