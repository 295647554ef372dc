/** What the ledger promises over every run. */
module LedgerTheorems {
  import opened Wire
  import opened Ledger
  import opened LedgerRuns
  import opened LedgerInvariant
  import Mail

  // ---------------------------------------------------------------- positions in a task's story

  lemma {:induction false} MailOfPrefix(log: seq<Message>, n: nat, id: TaskId)
    requires n <= |log|
    ensures MailOf(log[..n], id) <= MailOf(log, id)
  {
    if n < |log| {
      MailOfPrefix(log[..|log| - 1], n, id);
      assert log[..|log| - 1][..n] == log[..n];
    } else {
      assert log[..n] == log;
    }
  }

  predicate Marked(log: seq<Message>, id: TaskId, m: nat) {
    m < |log| && log[m].task == Some(id) && MarkOf(log[m].body).Some?
  }

  /** The place of message `m` in the story. */
  function Place(log: seq<Message>, id: TaskId, m: nat): nat
    requires m <= |log|
  {
    |MailOf(log[..m], id)|
  }

  lemma MarkAtPlace(log: seq<Message>, id: TaskId, m: nat)
    requires Marked(log, id, m)
    ensures Place(log, id, m) < |MailOf(log, id)|
    ensures MailOf(log, id)[Place(log, id, m)] == MarkOf(log[m].body).value
  {
    assert log[..m + 1] == log[..m] + [log[m]];
    MailOfAppend(log[..m], log[m], id);
    MailOfPrefix(log, m + 1, id);
  }

  lemma PlacesClimb(log: seq<Message>, id: TaskId, a: nat, b: nat)
    requires Marked(log, id, a) && a < b <= |log|
    ensures Place(log, id, a) < Place(log, id, b)
  {
    MarkAtPlace(log[..b], id, a);
    assert log[..b][..a] == log[..a];
  }

  lemma {:induction false} PlaceFilled(log: seq<Message>, id: TaskId, k: nat) returns (m: nat)
    requires k < |MailOf(log, id)|
    ensures Marked(log, id, m) && Place(log, id, m) == k
  {
    var rest := log[..|log| - 1];
    if k < |MailOf(rest, id)| {
      m := PlaceFilled(rest, id, k);
      assert rest[..m] == log[..m];
    } else {
      m := |log| - 1;
    }
  }

  // ---------------------------------------------------------------- exactly-once mail

  function Times(marks: seq<Mark>, mark: Mark): nat { multiset(marks)[mark] }

  /** A story never repeats a mark, starts with its launch, and ends with its outcome or its cancel. */
  lemma StoriesAreOnce(marks: seq<Mark>)
    requires Story(marks)
    ensures Times(marks, Launched) == 1 && Times(marks, AcceptSent) <= 1
    ensures Times(marks, CancelSent) + Times(marks, OutcomeSent) <= 1
    ensures marks[0] == Launched
    ensures forall k :: 0 <= k < |marks| - 1 ==> marks[k] != OutcomeSent && marks[k] != CancelSent
  {
    assert marks == [Launched] || marks == [Launched, AcceptSent] || marks == [Launched, OutcomeSent]
        || marks == [Launched, AcceptSent, OutcomeSent] || marks == [Launched, CancelSent]
        || marks == [Launched, AcceptSent, CancelSent];
  }

  lemma LogGrows(d: Daemon, d': Daemon)
    requires Next(d, d')
    ensures d.db.mail.log <= d'.db.mail.log
  {
    var now, op :| Takes(d, now, op, d');
    match op
    case Tasks(t) => var w := TaskOpWrites(d.db, now, t);
    case House(h) => if h.SweepOne? { var w := SweepWrites(d.db, now, d.sweeper.todo[0]); }
    case _ =>
  }

  lemma {:induction false} RunLogGrows(run: seq<Daemon>, i: nat, j: nat)
    requires IsRun(run) && i <= j < |run|
    ensures run[i].db.mail.log <= run[j].db.mail.log
  {
    if i < j {
      RunLogGrows(run, i, j - 1);
      assert StepAt(run, j - 1);
      LogGrows(run[j - 1], run[j]);
    }
  }

  lemma StoryOnlyGrows(log: seq<Message>, log': seq<Message>, id: TaskId)
    requires log <= log'
    ensures MailOf(log, id) <= MailOf(log', id)
  {
    assert log'[..|log|] == log;
    MailOfPrefix(log', |log|, id);
  }

  /** A task that was ever known keeps a story, even once its row is purged. */
  lemma TaskHasStory(s: Store, s': Store, id: TaskId)
    requires StoriesFit(s) && StoriesFit(s') && id in s.tasks && MailOf(s.mail.log, id) <= MailOf(s'.mail.log, id)
    ensures Story(MailOf(s'.mail.log, id))
  {
  }

  /**
   * Exactly-once mail: whatever clients do, a task known at some moment has one launch, at most one
   * accept and at most one ending from then on, and no later message rewrites what was already told.
   */
  lemma MailIsExactlyOnce(run: seq<Daemon>, i: nat, j: nat, id: TaskId)
    requires IsRun(run) && i <= j < |run| && id in run[i].db.tasks
    ensures Story(MailOf(run[j].db.mail.log, id))
    ensures MailOf(run[i].db.mail.log, id) <= MailOf(run[j].db.mail.log, id)
  {
    RunKeepsInv(run, i);
    RunKeepsInv(run, j);
    RunLogGrows(run, i, j);
    StoryOnlyGrows(run[i].db.mail.log, run[j].db.mail.log, id);
    TaskHasStory(run[i].db, run[j].db, id);
  }

  /** No move by a broker, a child or a requester commits without the mail it implies. */
  lemma MovesCarryTheirMail(s: Store, now: int, id: TaskId, to: TaskState, a: Actor, body: Body)
    requires StoreInv(s) && a.Caller? && Speaks(body, id, to)
    requires Move(s, now, id, to, a, body).1 == Ok(true)
    ensures var s' := Move(s, now, id, to, a, body).0;
      var n, row := |s.mail.log|, if to == Cancelled then s.tasks[id].launcher else s.tasks[id].requester;
      && |s'.mail.log| == n + 1 && s.mail.log <= s'.mail.log
      && MailOf(s'.mail.log, id) == MailOf(s.mail.log, id) + [MarkFor(to)]
      && Mail.Unread(s'.mail, row.scope, row.agent, n)
  {
    MoveEffect(s, now, id, to, a, body);
    EffectSound(s, id, to, a, body);
    var e := EffectOf(s, id, to, a, body);
    MailOfAppend(s.mail.log, Posting(now, e.from, e.to, e.body, id), id);
  }

  /** The expiry of a live task always commits, with mail or silently. */
  lemma ExpiryCommits(s: Store, id: TaskId, body: Body)
    requires StoreInv(s) && id in s.tasks && (s.tasks[id].state == Queued || s.tasks[id].state == Accepted)
    ensures var e := EffectOf(s, id, Failed, System, body);
      (e.Silent? || (e.Mailed? && e.body == body)) && (e.Mailed? <==> s.tasks[id].requester in s.agents)
  {
    assert LauncherPresent(s, s.tasks[id]);
  }

  /** A deadline failure is silent exactly when the requester's row is gone. */
  lemma ExpiryTellsTheRequester(s: Store, now: int, id: TaskId)
    requires StoreInv(s) && id in s.tasks && (s.tasks[id].state == Queued || s.tasks[id].state == Accepted)
    ensures Expire(s, now, id).1 == Ok(true) && Expire(s, now, id).0.tasks[id].state == Failed
    ensures s.tasks[id].requester in s.agents <==>
      MailOf(Expire(s, now, id).0.mail.log, id) == MailOf(s.mail.log, id) + [OutcomeSent]
  {
    var body := FailedBody(id, "deadline exceeded");
    MoveEffect(s, now, id, Failed, System, body);
    ExpiryCommits(s, id, body);
    var e := EffectOf(s, id, Failed, System, body);
    if e.Mailed? {
      var t := s.tasks[id].(state := Failed, updatedAt := now);
      ExpiryMailed(s, id, t, Posting(now, e.from, e.to, e.body, id), e.to);
    } else {
      assert Expire(s, now, id).0.mail == s.mail;
      assert |MailOf(s.mail.log, id) + [OutcomeSent]| != |MailOf(s.mail.log, id)|;
    }
  }

  lemma ExpiryMailed(s: Store, id: TaskId, t: Task, m: Message, to: Address)
    requires m.task == Some(id) && m.body.FailedBody?
    ensures MailOf(Written(s, id, t, Some(m), {to.agent}).mail.log, id) == MailOf(s.mail.log, id) + [OutcomeSent]
  {
    MailOfAppend(s.mail.log, m, id);
  }

  // ---------------------------------------------------------------- exact redelivery

  predicate IsLaunchOf(s: Store, id: TaskId, m: nat) {
    m < |s.mail.log| && s.mail.log[m].task == Some(id) && s.mail.log[m].body.LaunchBody?
  }

  predicate IsCancelOf(s: Store, id: TaskId, m: nat) {
    m < |s.mail.log| && s.mail.log[m].task == Some(id) && s.mail.log[m].body.CancelBody?
  }

  /** While a task holds its broker, its launcher session resolves to the recorded row, whoever else uses the id. */
  lemma LauncherResolves(s: Store, id: TaskId)
    requires StoreInv(s) && id in s.tasks && HoldsBroker(s.tasks[id])
    ensures FirstRow(s.agents, s.tasks[id].launcher.agent) == Some(s.tasks[id].launcher)
  {
    assert LauncherPresent(s, s.tasks[id]);
    assert IsRelayRow(s.agents, s.tasks[id].launcher);
  }

  /** What the launcher's row was sent for a task is its launch and its cancel, and all of it is still there. */
  lemma LauncherMail(s: Store, id: TaskId, m: nat)
    requires StoreInv(s) && id in s.tasks && HoldsBroker(s.tasks[id])
    ensures ToLauncher(s, id, s.tasks[id].launcher, m) <==> IsLaunchOf(s, id, m) || IsCancelOf(s, id, m)
  {
    var t := s.tasks[id];
    assert RowSound(s, t);
    if m < |s.mail.log| && s.mail.log[m].task == Some(id) {
      assert Addressed(t, s.mail.log[m]);
    }
  }

  /** The MIN query hands out exactly the launch of each queued task of this session. */
  lemma LaunchesExact(s: Store, session: Session, id: TaskId, m: nat)
    requires StoreInv(s)
    ensures PendingLaunch(s, session, id, m) <==>
      id in s.tasks && s.tasks[id].launcher.agent == session && s.tasks[id].state == Queued && IsLaunchOf(s, id, m)
  {
    if id in s.tasks && s.tasks[id].launcher.agent == session && s.tasks[id].state == Queued {
      assert RowSound(s, s.tasks[id]);
      LauncherResolves(s, id);
      forall other: nat ensures ToLauncher(s, id, s.tasks[id].launcher, other) ==> IsLaunchOf(s, id, other) {
        LauncherMail(s, id, other);
        if IsCancelOf(s, id, other) { MarkAtPlace(s.mail.log, id, other); }
      }
      LauncherMail(s, id, m);
      if IsLaunchOf(s, id, m) {
        forall other | IsLaunchOf(s, id, other) ensures other == m {
          SameLaunch(s.mail.log, id, other, m);
        }
      }
    }
  }

  /** A story begins with its launch. */
  lemma TheLaunch(log: seq<Message>, id: TaskId) returns (m: nat)
    requires Story(MailOf(log, id))
    ensures Marked(log, id, m) && log[m].body.LaunchBody?
  {
    m := PlaceFilled(log, id, 0);
    MarkAtPlace(log, id, m);
    StoriesAreOnce(MailOf(log, id));
  }

  lemma SameLaunch(log: seq<Message>, id: TaskId, a: nat, b: nat)
    requires Story(MailOf(log, id))
    requires Marked(log, id, a) && log[a].body.LaunchBody? && Marked(log, id, b) && log[b].body.LaunchBody?
    ensures a == b
  {
    StoriesAreOnce(MailOf(log, id));
    MarkAtPlace(log, id, a);
    MarkAtPlace(log, id, b);
    assert Place(log, id, a) == 0 && Place(log, id, b) == 0 by {
      assert forall k :: 0 < k < |MailOf(log, id)| ==> MailOf(log, id)[k] != Launched;
    }
    if a < b { PlacesClimb(log, id, a, b); }
    if b < a { PlacesClimb(log, id, b, a); }
  }

  /** A story that ends in a cancel has one, and it is the last of its mail. */
  lemma TheCancel(log: seq<Message>, id: TaskId) returns (last: nat)
    requires Story(MailOf(log, id)) && MailOf(log, id)[|MailOf(log, id)| - 1] == CancelSent
    ensures Marked(log, id, last) && log[last].body.CancelBody?
    ensures forall other: nat :: Marked(log, id, other) ==> other <= last
    ensures forall other: nat :: Marked(log, id, other) && log[other].body.CancelBody? ==> other == last
  {
    last := PlaceFilled(log, id, |MailOf(log, id)| - 1);
    MarkAtPlace(log, id, last);
    forall other: nat | Marked(log, id, other)
      ensures other <= last && (log[other].body.CancelBody? ==> other == last)
    {
      NothingAfterCancel(log, id, last, other);
    }
  }

  lemma NothingAfterCancel(log: seq<Message>, id: TaskId, last: nat, other: nat)
    requires Story(MailOf(log, id)) && Marked(log, id, last) && Place(log, id, last) == |MailOf(log, id)| - 1
    requires Marked(log, id, other)
    ensures other <= last && (log[other].body.CancelBody? ==> other == last)
  {
    MarkAtPlace(log, id, other);
    if last < other {
      PlacesClimb(log, id, last, other);
    } else if other < last {
      PlacesClimb(log, id, other, last);
      StoriesAreOnce(MailOf(log, id));
    }
  }

  /** The MAX query hands out exactly the cancel of each cancelled task this session has not answered. */
  lemma CancelsExact(s: Store, session: Session, id: TaskId, m: nat)
    requires StoreInv(s)
    ensures PendingCancel(s, session, id, m) <==>
      id in s.tasks && s.tasks[id].launcher.agent == session && s.tasks[id].state == Cancelled &&
      !s.tasks[id].cancelAcked && IsCancelOf(s, id, m)
  {
    var known := id in s.tasks && s.tasks[id].launcher.agent == session;
    if known && s.tasks[id].state == Cancelled && !s.tasks[id].cancelAcked {
      LauncherResolves(s, id);
      var last := TheCancel(s.mail.log, id);
      forall other: nat | ToLauncher(s, id, s.tasks[id].launcher, other) ensures other <= last {
        LauncherMail(s, id, other);
        assert Marked(s.mail.log, id, other);
      }
      assert IsCancelOf(s, id, last);
      LauncherMail(s, id, last);
      LauncherMail(s, id, m);
      assert IsCancelOf(s, id, m) ==> Marked(s.mail.log, id, m);
    }
  }

  /** Nothing owed is ever missing from the queue. */
  lemma OwedIsQueued(s: Store, id: TaskId) returns (m: nat)
    requires StoreInv(s) && id in s.tasks && HoldsBroker(s.tasks[id]) && s.tasks[id].state != Accepted
    ensures s.tasks[id].state == Queued ==> PendingLaunch(s, s.tasks[id].launcher.agent, id, m)
    ensures s.tasks[id].state == Cancelled ==> PendingCancel(s, s.tasks[id].launcher.agent, id, m)
  {
    var marks := MailOf(s.mail.log, id);
    m := PlaceFilled(s.mail.log, id, |marks| - 1);
    MarkAtPlace(s.mail.log, id, m);
    LaunchesExact(s, s.tasks[id].launcher.agent, id, m);
    CancelsExact(s, s.tasks[id].launcher.agent, id, m);
  }

  /** A broker is never owed two things at once. */
  lemma OwedAtMostOnce(s: Store, session: Session, a: TaskId, m: nat, b: TaskId, n: nat)
    requires StoreInv(s)
    requires PendingLaunch(s, session, a, m) || PendingCancel(s, session, a, m)
    requires PendingLaunch(s, session, b, n) || PendingCancel(s, session, b, n)
    ensures a == b && m == n
  {
    LaunchesExact(s, session, a, m);
    CancelsExact(s, session, a, m);
    LaunchesExact(s, session, b, n);
    CancelsExact(s, session, b, n);
    assert RowSound(s, s.tasks[a]) && RowSound(s, s.tasks[b]);
  }

  /** What ReadBroker hands back of the broker's own inbox: everything unread except ledger mail. */
  predicate BrokerRead(s: Store, scope: Scope, agent: Session, m: nat) {
    Mail.Unread(s.mail, scope, agent, m) && s.mail.log[m].task.None?
  }

  /**
   * A poll is three reads at three moments: the inbox, the launches, the cancels. However much
   * commits in between, no message id reaches the broker twice.
   */
  lemma PollHasNoDuplicate(s0: Store, s1: Store, s2: Store, session: Session, scope: Scope,
                           m0: nat, a: TaskId, m1: nat, b: TaskId, m2: nat)
    requires StoreInv(s1) && StoreInv(s2)
    requires s0.mail.log <= s1.mail.log <= s2.mail.log
    requires BrokerRead(s0, scope, session, m0) && PendingLaunch(s1, session, a, m1)
    requires PendingCancel(s2, session, b, m2)
    ensures m0 != m1 && m0 != m2 && m1 != m2
  {
    LaunchesExact(s1, session, a, m1);
    CancelsExact(s2, session, b, m2);
  }

  // ---------------------------------------------------------------- sweep before purge

  /** The "nobody to tell" answer of a cancel is unreachable: every committed cancel writes its mail. */
  lemma CancelFindsItsBroker(run: seq<Daemon>, i: nat, now: int, id: TaskId, a: Actor)
    requires IsRun(run) && i < |run| && run[i].db.clock <= now && a.Caller?
    requires id in run[i].db.tasks && HoldsBroker(run[i].db.tasks[id])
    ensures RelayKind(run[i].db.agents, run[i].db.tasks[id].launcher, Launcher)
    ensures Cancel(run[i].db, now, id, a).1 == Ok(true) ==>
      var s' := At(run[i].(db := Cancel(run[i].db, now, id, a).0), now).db;
      PendingCancel(s', s'.tasks[id].launcher.agent, id, |run[i].db.mail.log|)
  {
    RunKeepsInv(run, i);
    var d := run[i];
    assert LauncherPresent(d.db, d.db.tasks[id]);
    if Cancel(d.db, now, id, a).1 == Ok(true) {
      var d' := At(d.(db := Cancel(d.db, now, id, a).0), now);
      MoveKeepsInv(d, now, id, Cancelled, a, CancelBody(id));
      CancelMailed(d.db, now, id, a);
      CancelsExact(d'.db, d'.db.tasks[id].launcher.agent, id, |d.db.mail.log|);
    }
  }

  lemma CancelMailed(s: Store, now: int, id: TaskId, a: Actor)
    requires StoreInv(s) && a.Caller? && id in s.tasks && Cancel(s, now, id, a).1 == Ok(true)
    ensures var s' := Cancel(s, now, id, a).0;
      && id in s'.tasks && s'.tasks[id].state == Cancelled && !s'.tasks[id].cancelAcked
      && s'.tasks[id].launcher == s.tasks[id].launcher && IsCancelOf(s', id, |s.mail.log|)
  {
    MoveEffect(s, now, id, Cancelled, a, CancelBody(id));
    EffectSound(s, id, Cancelled, a, CancelBody(id));
    assert RowSound(s, s.tasks[id]);
  }

  /** A finished sweep has released every task past its deadline, and none becomes overdue behind it. */
  lemma SweepReleases(run: seq<Daemon>, i: nat, id: TaskId)
    requires IsRun(run) && i < |run| && run[i].sweeper.Swept?
    requires id in run[i].db.tasks
    requires run[i].db.tasks[id].createdAt + run[i].db.tasks[id].deadline < run[i].sweeper.cutoff
    ensures !HoldsBroker(run[i].db.tasks[id])
  {
    RunKeepsInv(run, i);
    assert !Overdue(run[i].db, run[i].sweeper.cutoff, id);
  }

  // ---------------------------------------------------------------- lifecycle measure

  /** queued > accepted > cancelled and unanswered > settled */
  function Rank(t: Task): nat {
    if t.state == Queued then 3 else if t.state == Accepted then 2 else if HoldsBroker(t) then 1 else 0
  }

  /** A place in life is left alone or lowered; settled is final; for whom, by whom and until when are fixed. */
  predicate Settles(t: Task, t': Task) {
    && (t' == t.(progress := t'.progress, heartbeatAt := t'.heartbeatAt) || Rank(t') < Rank(t))
    && (Rank(t) == 0 ==> t'.state == t.state && Rank(t') == 0)
    && t'.requester == t.requester && t'.launcher == t.launcher
    && t'.runtime == t.runtime && t'.createdAt == t.createdAt && t'.deadline == t.deadline
  }

  lemma WriteSettles(s: Store, now: int, w: Write, other: TaskId)
    requires WriteSound(s, now, w) && other in s.tasks && RowSound(s, s.tasks[other])
    ensures other in Wrote(s, now, w).tasks && Settles(s.tasks[other], Wrote(s, now, w).tasks[other])
  {
  }

  /** Every transaction settles a task or leaves it be, and only a settled task's row ever leaves the ledger. */
  lemma LifeOnlyFalls(d: Daemon, d': Daemon, id: TaskId)
    requires Inv(d) && Next(d, d') && id in d.db.tasks
    ensures id in d'.db.tasks ==> Settles(d.db.tasks[id], d'.db.tasks[id])
    ensures id !in d'.db.tasks ==> Rank(d.db.tasks[id]) == 0
  {
    var now, op :| Takes(d, now, op, d');
    assert RowSound(d.db, d.db.tasks[id]);
    match op
    case Tasks(t) =>
      var w := TaskOpWrites(d.db, now, t);
      WriteSettles(d.db, now, w, id);
    case House(h) => HouseSettles(d, now, h, id);
    case _ =>
  }

  lemma HouseSettles(d: Daemon, now: int, op: HouseOp, id: TaskId)
    requires SweepSound(d) && d.db.clock <= now && HouseEnabled(d, now, op)
    requires id in d.db.tasks && RowSound(d.db, d.db.tasks[id])
    ensures var d' := HouseAfter(d, now, op);
      if id in d'.db.tasks then Settles(d.db.tasks[id], d'.db.tasks[id]) else Rank(d.db.tasks[id]) == 0
  {
    if op.SweepOne? {
      var w := SweepWrites(d.db, now, d.sweeper.todo[0]);
      WriteSettles(d.db, now, w, id);
    } else if op.TaskPurge? {
      assert !Overdue(d.db, d.sweeper.cutoff, id);
    }
  }

  /** A task id whose mail is in the log is never assigned again. */
  lemma NoReturn(d: Daemon, d': Daemon, id: TaskId)
    requires Inv(d) && Next(d, d') && MailOf(d.db.mail.log, id) != [] && id !in d.db.tasks
    ensures id !in d'.db.tasks
  {
    var now, op :| Takes(d, now, op, d');
    match op
    case Tasks(t) =>
      var w := TaskOpWrites(d.db, now, t);
      if w.Write? && w.id == id { NoMailYet(d.db.mail.log, id); }
    case House(h) => if h.SweepOne? { ExpireSettles(d.db, now, d.sweeper.todo[0]); }
    case _ =>
  }

  /** Where a task stands; a purged one is settled. */
  function Standing(s: Store, id: TaskId): nat {
    if id in s.tasks then Rank(s.tasks[id]) else 0
  }

  lemma StandingFalls(d: Daemon, d': Daemon, id: TaskId)
    requires Inv(d) && Next(d, d') && MailOf(d.db.mail.log, id) != []
    ensures Standing(d'.db, id) <= Standing(d.db, id)
    ensures id in d'.db.tasks ==> id in d.db.tasks
    ensures id in d'.db.tasks && Standing(d.db, id) == 0 ==> d'.db.tasks[id].state == d.db.tasks[id].state
    ensures MailOf(d'.db.mail.log, id) != []
  {
    LogGrows(d, d');
    StoryOnlyGrows(d.db.mail.log, d'.db.mail.log, id);
    if id in d.db.tasks { LifeOnlyFalls(d, d', id); } else { NoReturn(d, d', id); }
  }

  /** Over a whole run a known task only falls: once settled it never holds a broker or changes state again. */
  lemma {:induction false} SettledIsFinal(run: seq<Daemon>, i: nat, j: nat, id: TaskId)
    requires IsRun(run) && i <= j < |run| && MailOf(run[i].db.mail.log, id) != []
    ensures Standing(run[j].db, id) <= Standing(run[i].db, id) && MailOf(run[j].db.mail.log, id) != []
    ensures id in run[j].db.tasks ==> id in run[i].db.tasks
    ensures id in run[j].db.tasks && Standing(run[i].db, id) == 0 ==>
              run[j].db.tasks[id].state == run[i].db.tasks[id].state
  {
    if i < j {
      SettledIsFinal(run, i, j - 1, id);
      RunKeepsInv(run, j - 1);
      assert StepAt(run, j - 1);
      StandingFalls(run[j - 1], run[j], id);
    }
  }

  lemma FailedTakesNoResult(s: Store, now: int, a: Actor, target: Address, body: Body)
    requires body.ResultBody? && (body.task in s.tasks ==> s.tasks[body.task].state == Failed)
    ensures Report(s, now, a, target, body).0 == s && Report(s, now, a, target, body).1.Refused?
  {
  }

  /** A result that comes after its task has failed is refused then and in every later state, and changes nothing. */
  lemma LateResultsAreRefused(run: seq<Daemon>, i: nat, j: nat, now: int, a: Actor, target: Address, body: Body)
    requires IsRun(run) && i <= j < |run| && body.ResultBody?
    requires body.task in run[i].db.tasks && run[i].db.tasks[body.task].state == Failed
    ensures Report(run[j].db, now, a, target, body).0 == run[j].db
    ensures Report(run[j].db, now, a, target, body).1.Refused?
  {
    RunKeepsInv(run, i);
    SettledIsFinal(run, i, j, body.task);
    FailedTakesNoResult(run[j].db, now, a, target, body);
  }

  /**
   * A child's terminal report is answered well exactly when it repeats the outcome, answers a cancel,
   * or is an edge of a live task whose requester is still there.
   */
  lemma TerminalAnswered(s: Store, now: int, a: Actor, target: Address, body: Body)
    requires Claims(body) == Some(Done) || Claims(body) == Some(Failed)
    requires body.task in s.tasks && target == s.tasks[body.task].requester
    requires a.Caller? && RoleOf(s, body.task, s.tasks[body.task], a) == RoleChild
    ensures var t, to := s.tasks[body.task], Claims(body).value;
      Report(s, now, a, target, body).1.Ok? <==>
        || t.state == to || t.state == Cancelled
        || ((t.state == Accepted || (t.state == Queued && to == Failed)) && t.requester in s.agents)
    ensures s.tasks[body.task].state == Failed && body.ResultBody? ==>
      Report(s, now, a, target, body) == (s, Refused(BadTransition))
  {
    MoveEffect(s, now, body.task, Claims(body).value, a, body);
  }

  // ---------------------------------------------------------------- picking a broker

  /** The single sorted row decides all four answers as the quantified definitions say. */
  lemma PickIsFaithful(s: Store, now: int, runtime: string, top: Option<Address>)
    requires IsTopRow(s, now, runtime, top)
    ensures var pick := PickLauncher(s, runtime, top);
      && (pick == NotPicked(NoLauncher) <==> forall row :: !Candidate(s, now, row))
      && (pick == NotPicked(NoProvider) <==>
            (exists row :: Candidate(s, now, row)) &&
            forall row :: Candidate(s, now, row) ==> !Matches(s.agents[row].caps, runtime))
      && (pick == NotPicked(EyesBusy) <==>
            (exists row :: Candidate(s, now, row) && Matches(s.agents[row].caps, runtime)) &&
            forall row :: Candidate(s, now, row) && Matches(s.agents[row].caps, runtime) ==> Busy(s, row.agent))
      && (pick.Picked? <==>
            exists row :: Candidate(s, now, row) && Matches(s.agents[row].caps, runtime) && !Busy(s, row.agent))
      && (pick.Picked? ==>
            && Candidate(s, now, pick.row) && Matches(s.agents[pick.row].caps, runtime) && !Busy(s, pick.row.agent)
            && forall row :: Candidate(s, now, row) && Matches(s.agents[row].caps, runtime) && !Busy(s, row.agent) ==>
                 s.agents[row].lastSeen <= s.agents[pick.row].lastSeen)
  {
    if top.Some? { assert Candidate(s, now, top.value); }
  }

  /** The sort always has a first row, so the pick always answers. */
  lemma TopRowExists(s: Store, now: int, runtime: string) returns (top: Option<Address>)
    ensures IsTopRow(s, now, runtime, top)
  {
    top := BestOf(s, now, runtime, s.agents.Keys);
  }

  lemma {:induction false} BestOf(s: Store, now: int, runtime: string, rows: set<Address>)
    returns (top: Option<Address>)
    requires rows <= s.agents.Keys
    ensures top.None? ==> forall row :: row in rows ==> !Candidate(s, now, row)
    ensures top.Some? ==> top.value in rows && Candidate(s, now, top.value)
    ensures top.Some? ==>
              forall row :: row in rows && Candidate(s, now, row) ==> !SortsBefore(s, runtime, row, top.value)
    decreases rows
  {
    if rows == {} {
      top := None;
    } else {
      var row :| row in rows;
      var best := BestOf(s, now, runtime, rows - {row});
      if Candidate(s, now, row) && (best.None? || SortsBefore(s, runtime, row, best.value)) {
        top := Some(row);
      } else {
        top := best;
      }
    }
  }

  /** A brief that named no runtime and matched always resolves to the first provider the broker advertises. */
  lemma DefaultResolves(caps: set<Cap>)
    requires Matches(caps, "")
    ensures DefaultProvider(caps).Some?
    ensures exists k | 0 <= k < |PROVIDER_ORDER| && DefaultProvider(caps) == Some(PROVIDER_ORDER[k]) ::
              Provider(PROVIDER_ORDER[k]) in caps && forall j :: 0 <= j < k ==> Provider(PROVIDER_ORDER[j]) !in caps
  {
    var p :| p in PROVIDER_ORDER && Provider(p) in caps;
    var k := if Provider("claude") in caps then 0 else if Provider("codex") in caps then 1 else 2;
    assert PROVIDER_ORDER[k] == ["claude", "codex", "grok"][k];
  }

  /** No two tasks hold one broker, in any reachable state. */
  lemma BrokerIsExclusive(run: seq<Daemon>, i: nat, a: TaskId, b: TaskId)
    requires IsRun(run) && i < |run| && a in run[i].db.tasks && b in run[i].db.tasks
    requires HoldsBroker(run[i].db.tasks[a]) && HoldsBroker(run[i].db.tasks[b])
    requires run[i].db.tasks[a].launcher.agent == run[i].db.tasks[b].launcher.agent
    ensures a == b
  {
    RunKeepsInv(run, i);
  }

  // ---------------------------------------------------------------- relay identity

  /** A session id names at most one relay row, and that row answers every cross-scope lookup. */
  lemma RelayRowAnswers(run: seq<Daemon>, i: nat, row: Address)
    requires IsRun(run) && i < |run| && IsRelayRow(run[i].db.agents, row)
    ensures FirstRow(run[i].db.agents, row.agent) == Some(row)
    ensures forall other :: IsRelayRow(run[i].db.agents, other) && other.agent == row.agent ==> other == row
  {
    RunKeepsInv(run, i);
  }

  /** Until it is purged, a launcher's row keeps its origin, kind and secret, and no row changes origin. */
  lemma RelayIdentityFixed(d: Daemon, d': Daemon, row: Address)
    requires Inv(d) && Next(d, d') && row in d.db.agents && row in d'.db.agents
    ensures SameIdentity(d.db.agents[row], d'.db.agents[row])
  {
    var now, op :| Takes(d, now, op, d');
    match op
    case Rows(r) => RowOpsEvolve(d.db, now, r);
    case Tasks(t) => var w := TaskOpWrites(d.db, now, t);
    case House(h) => if h.SweepOne? { var w := SweepWrites(d.db, now, d.sweeper.todo[0]); }
    case _ =>
  }

  predicate RowAt(run: seq<Daemon>, row: Address, k: nat) {
    k < |run| && row in run[k].db.agents
  }

  lemma StepKeepsIdentity(run: seq<Daemon>, k: nat, row: Address)
    requires IsRun(run) && RowAt(run, row, k) && RowAt(run, row, k + 1)
    ensures SameIdentity(run[k].db.agents[row], run[k + 1].db.agents[row])
  {
    RunKeepsInv(run, k);
    assert StepAt(run, k);
    RelayIdentityFixed(run[k], run[k + 1], row);
  }

  /** Over a run, for as long as a row is there, it is the same identity. */
  lemma {:induction false} RelayIdentityOverRun(run: seq<Daemon>, i: nat, j: nat, row: Address)
    requires IsRun(run) && i <= j < |run|
    requires forall k :: i <= k <= j ==> RowAt(run, row, k)
    ensures RowAt(run, row, i) && RowAt(run, row, j)
    ensures SameIdentity(run[i].db.agents[row], run[j].db.agents[row])
  {
    assert RowAt(run, row, i) && RowAt(run, row, j);
    if i < j {
      RelayIdentityOverRun(run, i, j - 1, row);
      StepKeepsIdentity(run, j - 1, row);
    }
  }
}
