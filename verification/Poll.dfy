/** One broker poll: its own inbox, then the launches, then the cancels it is owed, folded into one reply. */
module Poll {
  import opened Wire
  import opened Ledger
  import opened LedgerRuns
  import opened LedgerInvariant
  import opened LedgerTheorems
  import opened Inbox
  import Mail

  datatype Kind = ReadPoll | PeekPoll

  /** A row as it is handed out; `from` is the sender's display name. */
  datatype Row = Row(id: nat, message: Message, from: string)

  datatype Response = Response(messages: seq<Row>, peekIds: seq<nat>, peekFroms: seq<string>, unread: nat)

  function Ids(rows: seq<Row>): seq<nat> {
    seq(|rows|, i requires 0 <= i < |rows| => rows[i].id)
  }

  predicate AllDistinct<T(==)>(s: seq<T>) {
    forall i, j :: 0 <= i < j < |s| ==> s[i] != s[j]
  }

  /** Owed work goes ahead of the fresh mail, and counts as unread on every peek. */
  method WithPending(kind: Kind, owed: seq<Row>, resp: Response) returns (out: Response)
    ensures owed == [] ==> out == resp
    ensures owed != [] && kind == ReadPoll ==> out == resp.(messages := owed + resp.messages)
    ensures owed != [] && kind == PeekPoll ==>
      && out.messages == resp.messages && out.peekIds == Ids(owed) + resp.peekIds && out.unread == |out.peekIds|
      && (AllDistinct(resp.peekFroms) ==> AllDistinct(out.peekFroms))
      && (forall f :: f in out.peekFroms <==> f in resp.peekFroms || exists i :: 0 <= i < |owed| && owed[i].from == f)
  {
    if owed == [] { return resp; }
    if kind == ReadPoll { return resp.(messages := owed + resp.messages); }
    var ids, froms := [], resp.peekFroms;
    for i := 0 to |owed|
      invariant |ids| == i && forall j :: 0 <= j < i ==> ids[j] == owed[j].id
      invariant AllDistinct(resp.peekFroms) ==> AllDistinct(froms)
      invariant forall f :: f in froms <==> f in resp.peekFroms || exists j :: 0 <= j < i && owed[j].from == f
    {
      ids := ids + [owed[i].id];
      if owed[i].from !in froms { froms := froms + [owed[i].from]; }
    }
    assert ids == Ids(owed);
    return Response(resp.messages, ids + resp.peekIds, froms, |owed| + |resp.peekIds|);
  }

  /** What the redelivery query answers: each owed row once. */
  ghost predicate QueueRows(s: Store, session: Session, state: TaskState, latest: bool, ids: seq<nat>) {
    && AllDistinct(ids)
    && (forall k :: 0 <= k < |ids| ==> exists id: TaskId :: Pending(s, session, state, latest, id, ids[k]))
    && (forall id: TaskId, m: nat :: Pending(s, session, state, latest, id, m) ==> m in ids)
  }

  /** A broker is owed at most one launch, and at most one cancel. */
  lemma QueueIsShort(s: Store, session: Session, state: TaskState, latest: bool, ids: seq<nat>)
    requires StoreInv(s) && QueueRows(s, session, state, latest, ids)
    requires (state == Queued && !latest) || (state == Cancelled && latest)
    ensures |ids| <= 1
  {
    if |ids| > 1 {
      var a: TaskId :| Pending(s, session, state, latest, a, ids[0]);
      var b: TaskId :| Pending(s, session, state, latest, b, ids[1]);
      OwedAtMostOnce(s, session, a, ids[0], b, ids[1]);
    }
  }

  /** The rows a broker's read hands back: everything unread but ledger mail, oldest first. */
  function OwnIds(s: Store, scope: Scope, session: Session): (ids: seq<nat>)
    ensures forall m: nat :: m in ids <==> BrokerRead(s, scope, session, m)
    ensures Ascending(ids) && InLog(s.mail.log, ids)
  {
    Select(|s.mail.log|, (m: nat) => BrokerRead(s, scope, session, m))
  }

  /** What `Tables.Read` returns to a broker is exactly the messages of those rows. */
  lemma ReadReturnsOwn(s: Store, scope: Scope, session: Session)
    ensures HandedBack(s.mail.log, UnreadIds(s.mail, scope, session), true) ==
      MessagesAt(s.mail.log, OwnIds(s, scope, session))
  {
    ReadShows(s.mail, scope, session, true);
    AscendingUnique(OwnIds(s, scope, session), ShownIds(s.mail, scope, session, true));
  }

  /**
   * A poll reads its inbox, the launches and the cancels in three transactions, at three moments of a
   * run. Whatever commits in between, it hands out exactly the launch of each task queued at the
   * second moment, the cancel of each task cancelled and unanswered at the third, and the ordinary mail
   * unread at the first; and no message twice.
   */
  lemma PollIsExact(run: seq<Daemon>, i: nat, j: nat, k: nat, session: Session, scope: Scope,
                    launches: seq<nat>, cancels: seq<nat>)
    requires IsRun(run) && i <= j <= k < |run|
    requires QueueRows(run[j].db, session, Queued, false, launches)
    requires QueueRows(run[k].db, session, Cancelled, true, cancels)
    ensures AllDistinct(launches + cancels + OwnIds(run[i].db, scope, session)) && |launches| <= 1 && |cancels| <= 1
    ensures forall m: nat :: m in launches <==> exists id: TaskId :: OwedLaunch(run[j].db, session, id, m)
    ensures forall m: nat :: m in cancels <==> exists id: TaskId :: OwedCancel(run[k].db, session, id, m)
    ensures HandedBack(run[i].db.mail.log, UnreadIds(run[i].db.mail, scope, session), true) ==
      MessagesAt(run[i].db.mail.log, OwnIds(run[i].db, scope, session))
  {
    RunKeepsInv(run, j);
    RunKeepsInv(run, k);
    RunLogGrows(run, i, j);
    RunLogGrows(run, j, k);
    QueueIsShort(run[j].db, session, Queued, false, launches);
    QueueIsShort(run[k].db, session, Cancelled, true, cancels);
    forall m: nat ensures m in launches <==> exists id: TaskId :: OwedLaunch(run[j].db, session, id, m) {
      LaunchRowExact(run[j].db, session, launches, m);
    }
    forall m: nat ensures m in cancels <==> exists id: TaskId :: OwedCancel(run[k].db, session, id, m) {
      CancelRowExact(run[k].db, session, cancels, m);
    }
    NoOverlap(run[i].db, run[j].db, run[k].db, session, scope, launches, cancels);
    ReadReturnsOwn(run[i].db, scope, session);
  }

  ghost predicate OwedLaunch(s: Store, session: Session, id: TaskId, m: nat) {
    id in s.tasks && s.tasks[id].launcher.agent == session && s.tasks[id].state == Queued && IsLaunchOf(s, id, m)
  }

  ghost predicate OwedCancel(s: Store, session: Session, id: TaskId, m: nat) {
    && id in s.tasks && s.tasks[id].launcher.agent == session
    && s.tasks[id].state == Cancelled && !s.tasks[id].cancelAcked && IsCancelOf(s, id, m)
  }

  lemma LaunchRowExact(s: Store, session: Session, ids: seq<nat>, m: nat)
    requires StoreInv(s) && QueueRows(s, session, Queued, false, ids)
    ensures m in ids <==> exists id: TaskId :: OwedLaunch(s, session, id, m)
  {
    if m in ids {
      var k :| 0 <= k < |ids| && ids[k] == m;
      var id: TaskId :| Pending(s, session, Queued, false, id, ids[k]);
      LaunchesExact(s, session, id, m);
      assert OwedLaunch(s, session, id, m);
    }
    if id: TaskId :| OwedLaunch(s, session, id, m) {
      LaunchesExact(s, session, id, m);
    }
  }

  lemma CancelRowExact(s: Store, session: Session, ids: seq<nat>, m: nat)
    requires StoreInv(s) && QueueRows(s, session, Cancelled, true, ids)
    ensures m in ids <==> exists id: TaskId :: OwedCancel(s, session, id, m)
  {
    if m in ids {
      var k :| 0 <= k < |ids| && ids[k] == m;
      var id: TaskId :| Pending(s, session, Cancelled, true, id, ids[k]);
      CancelsExact(s, session, id, m);
      assert OwedCancel(s, session, id, m);
    }
    if id: TaskId :| OwedCancel(s, session, id, m) {
      CancelsExact(s, session, id, m);
    }
  }

  /** The three parts of a poll share no message: a launch is not a cancel, and neither is ordinary mail. */
  lemma NoOverlap(s0: Store, s1: Store, s2: Store, session: Session, scope: Scope,
                  launches: seq<nat>, cancels: seq<nat>)
    requires StoreInv(s1) && StoreInv(s2) && s0.mail.log <= s1.mail.log <= s2.mail.log
    requires AllDistinct(launches) && AllDistinct(cancels)
    requires forall m: nat :: m in launches ==> exists id: TaskId :: OwedLaunch(s1, session, id, m)
    requires forall m: nat :: m in cancels ==> exists id: TaskId :: OwedCancel(s2, session, id, m)
    ensures AllDistinct(launches + cancels + OwnIds(s0, scope, session))
  {
    var log := s2.mail.log;
    forall a | 0 <= a < |launches|
      ensures launches[a] < |log| && log[launches[a]].body.LaunchBody? && log[launches[a]].task.Some?
    {
      assert launches[a] in launches;
      var id: TaskId :| OwedLaunch(s1, session, id, launches[a]);
    }
    forall b | 0 <= b < |cancels|
      ensures cancels[b] < |log| && log[cancels[b]].body.CancelBody? && log[cancels[b]].task.Some?
    {
      assert cancels[b] in cancels;
      var id: TaskId :| OwedCancel(s2, session, id, cancels[b]);
    }
    var own := OwnIds(s0, scope, session);
    forall c | 0 <= c < |own| ensures own[c] < |log| && log[own[c]].task.None? {
      assert own[c] in own && BrokerRead(s0, scope, session, own[c]);
    }
  }
}
