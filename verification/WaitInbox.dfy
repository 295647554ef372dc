/** A waiter's inbox is the daemon's: what a peek answers is what the cursor's proof assumes of it. */
module WaitInbox {
  import opened Wire
  import opened Ledger
  import opened LedgerRuns
  import opened LedgerInvariant
  import opened LedgerAnswers
  import Inbox
  import Mail
  import W = WaitCursor

  // ---------------------------------------------------------------- one moment

  /** The inbox as a waiter knows it: message ids count from one. */
  function BoxOf(m: Mail.Store, scope: Scope, agent: Session): W.Box {
    W.Box(|m.log|,
          set id | 0 <= id < |m.log| && Mail.Delivered(m, scope, agent, id) :: id + 1,
          set id | 0 <= id < |m.log| && Mail.Delivered(m, scope, agent, id) && m.receipts[(id, agent)].read :: id + 1)
  }

  lemma BoxHolds(m: Mail.Store, scope: Scope, agent: Session, n: nat)
    ensures n in BoxOf(m, scope, agent).delivered <==> n > 0 && Mail.Delivered(m, scope, agent, n - 1)
    ensures W.Unread(BoxOf(m, scope, agent), n) <==> n > 0 && Mail.Unread(m, scope, agent, n - 1)
  {
    if n > 0 { assert n == (n - 1) + 1; }
  }

  /** A peek beyond a cursor sees something exactly when mail with a later id is unread. */
  lemma PeekSeesMail(m: Mail.Store, scope: Scope, agent: Session, afterId: nat)
    ensures Inbox.PeekedIds(m, scope, agent, afterId, false) != [] <==> W.SeesMail(BoxOf(m, scope, agent), afterId)
  {
    var ids, b := Inbox.PeekedIds(m, scope, agent, afterId, false), BoxOf(m, scope, agent);
    if ids != [] {
      assert ids[0] in ids;
      BoxHolds(m, scope, agent, ids[0] + 1);
      assert W.Unread(b, ids[0] + 1) && ids[0] + 1 > afterId;
    }
    if n: nat :| n > afterId && W.Unread(b, n) {
      BoxHolds(m, scope, agent, n);
      assert n - 1 in ids;
    }
  }

  lemma PeekedAre(m: Mail.Store, scope: Scope, agent: Session, afterId: nat, skipLedger: bool)
    ensures var ids := Inbox.PeekedIds(m, scope, agent, afterId, skipLedger);
      && (forall id: nat :: id in ids <==>
            Mail.Unread(m, scope, agent, id) && id + 1 > afterId && (skipLedger ==> m.log[id].task.None?))
      && (!skipLedger ==> (ids != [] <==> W.SeesMail(BoxOf(m, scope, agent), afterId)))
  {
    if !skipLedger { PeekSeesMail(m, scope, agent, afterId); }
  }

  /** Unread mail is missing from a peek only if its id is not beyond the cursor, or a broker has it in its queue. */
  lemma PeekMissesOnly(m: Mail.Store, scope: Scope, agent: Session, afterId: nat, skipLedger: bool, n: nat)
    requires W.Unread(BoxOf(m, scope, agent), n)
    ensures n > 0 && n <= |m.log|
    ensures n - 1 !in Inbox.PeekedIds(m, scope, agent, afterId, skipLedger) <==>
      n <= afterId || (skipLedger && m.log[n - 1].task.Some?)
  {
    BoxHolds(m, scope, agent, n);
  }

  lemma HighWaterIs(m: Mail.Store, scope: Scope, agent: Session, high: nat)
    requires forall id: nat :: Mail.Delivered(m, scope, agent, id) ==> id < high
    requires high > 0 ==> Mail.Delivered(m, scope, agent, high - 1)
    ensures W.IsHighWater(BoxOf(m, scope, agent), high)
  {
    BoxHolds(m, scope, agent, high);
    forall n: nat | n in BoxOf(m, scope, agent).delivered ensures n <= high { BoxHolds(m, scope, agent, n); }
  }

  // ---------------------------------------------------------------- over a run

  /** The waiter's box is the daemon's inbox; what it remembers of deleted mail does not matter. */
  ghost predicate Mirrors(m: Mail.Store, scope: Scope, agent: Session, b: W.Box) {
    && (forall n: nat :: n in b.delivered <==> n > 0 && Mail.Delivered(m, scope, agent, n - 1))
    && (forall n: nat :: n in b.delivered ==> (n in b.read <==> m.receipts[(n - 1, agent)].read))
    && (forall n: nat :: n in b.delivered || n in b.read ==> n <= b.top) && b.top <= |m.log|
  }

  lemma MirrorNow(m: Mail.Store, scope: Scope, agent: Session)
    ensures Mirrors(m, scope, agent, BoxOf(m, scope, agent))
  {
    forall n: nat ensures n in BoxOf(m, scope, agent).delivered <==> n > 0 && Mail.Delivered(m, scope, agent, n - 1) {
      BoxHolds(m, scope, agent, n);
    }
  }

  /** The moves the cursor's proof allows an inbox, and standing still. */
  ghost predicate InboxMoves(b: W.Box, b': W.Box) {
    b' == b || W.BoxMoves(b, b')
  }

  /** Nothing about old deliveries changes, and at most one message is written, unread by anybody. */
  predicate Posts(m: Mail.Store, m': Mail.Store) {
    && m.log <= m'.log && |m'.log| <= |m.log| + 1
    && (forall id :: 0 <= id < |m.log| ==> (id in m'.kept <==> id in m.kept))
    && (forall k :: k in m.receipts ==> k in m'.receipts && m'.receipts[k].read == m.receipts[k].read)
    && (forall k :: k in m'.receipts && k !in m.receipts ==> k.0 >= |m.log| && !m'.receipts[k].read)
  }

  lemma PostMirrored(m: Mail.Store, m': Mail.Store, scope: Scope, agent: Session, b: W.Box) returns (b': W.Box)
    requires Mirrors(m, scope, agent, b) && Posts(m, m') && forall k :: k in m.receipts ==> k.0 < |m.log|
    ensures Mirrors(m', scope, agent, b') && InboxMoves(b, b')
  {
    var n := |m.log| + 1;
    if Mail.Delivered(m', scope, agent, |m.log|) {
      b' := W.Box(n, b.delivered + {n}, b.read);
      assert W.Delivers(b, b');
    } else {
      b' := b;
    }
  }

  lemma ReadMirrored(m: Mail.Store, reader: Session, ids: set<nat>, scope: Scope, agent: Session, b: W.Box)
    returns (b': W.Box)
    requires Mirrors(m, scope, agent, b)
    ensures Mirrors(Mail.MarkRead(m, reader, ids), scope, agent, b') && InboxMoves(b, b')
  {
    var read := set n | n in b.delivered && Mail.MarkRead(m, reader, ids).receipts[(n - 1, agent)].read;
    b' := b.(read := b.read + read);
    assert W.Reads(b, read, b');
  }

  lemma PurgeMirrored(m: Mail.Store, m': Mail.Store, scope: Scope, agent: Session, b: W.Box) returns (b': W.Box)
    requires Mirrors(m, scope, agent, b) && m'.log == m.log && m'.kept <= m.kept
    requires forall k :: k in m'.receipts ==> k in m.receipts && m'.receipts[k] == m.receipts[k]
    ensures Mirrors(m', scope, agent, b') && InboxMoves(b, b')
  {
    var gone := set n | n in b.delivered && !Mail.Delivered(m', scope, agent, n - 1);
    b' := b.(delivered := b.delivered - gone);
    assert W.Purges(b, gone, b');
  }

  lemma WritePosts(s: Store, now: int, w: Write)
    requires WriteSound(s, now, w) && ReceiptsKnown(s)
    ensures Posts(s.mail, Wrote(s, now, w).mail)
  {
  }

  /** Whatever the daemon does to its tables, an inbox makes one of the moves the cursor's proof allows. */
  lemma StepMirrored(d: Daemon, now: int, op: Op, d': Daemon, scope: Scope, agent: Session, b: W.Box)
    returns (b': W.Box)
    requires Takes(d, now, op, d') && ReceiptsKnown(d.db) && Mirrors(d.db.mail, scope, agent, b)
    ensures Mirrors(d'.db.mail, scope, agent, b') && InboxMoves(b, b')
  {
    match op
    case Tasks(t) =>
      var w := TaskOpWrites(d.db, now, t);
      WritePosts(d.db, now, w);
      b' := PostMirrored(d.db.mail, d'.db.mail, scope, agent, b);
    case Mails(m) => b' := MailMirrored(d.db, now, m, scope, agent, b);
    case House(h) => b' := HouseMirrored(d, now, h, scope, agent, b);
    case Rows(_) => b' := b;
  }

  lemma MailMirrored(s: Store, now: int, op: MailOp, scope: Scope, agent: Session, b: W.Box) returns (b': W.Box)
    requires ReceiptsKnown(s) && Mirrors(s.mail, scope, agent, b)
    ensures Mirrors(MailAfter(s, now, op), scope, agent, b') && InboxMoves(b, b')
  {
    match op
    case ReadMail(place, reader) =>
      b' := ReadMirrored(s.mail, reader, UnreadSet(s.mail, place, reader), scope, agent, b);
    case _ => b' := PostMirrored(s.mail, MailAfter(s, now, op), scope, agent, b);
  }

  lemma HouseMirrored(d: Daemon, now: int, op: HouseOp, scope: Scope, agent: Session, b: W.Box) returns (b': W.Box)
    requires HouseEnabled(d, now, op) && ReceiptsKnown(d.db) && Mirrors(d.db.mail, scope, agent, b)
    ensures Mirrors(HouseAfter(d, now, op).db.mail, scope, agent, b') && InboxMoves(b, b')
  {
    if op.SweepOne? {
      var w := SweepWrites(d.db, now, d.sweeper.todo[0]);
      WritePosts(d.db, now, w);
      b' := PostMirrored(d.db.mail, HouseAfter(d, now, op).db.mail, scope, agent, b);
    } else {
      b' := PurgeMirrored(d.db.mail, HouseAfter(d, now, op).db.mail, scope, agent, b);
    }
  }

  /** So over any run of the daemon each inbox is a box that makes only those moves, from an empty one. */
  lemma {:induction false} InboxIsABox(run: seq<Daemon>, i: nat, scope: Scope, agent: Session)
    returns (boxes: seq<W.Box>)
    requires IsRun(run) && i < |run|
    ensures |boxes| == i + 1 && boxes[0] == W.Box(0, {}, {})
    ensures forall k :: 0 <= k <= i ==> Mirrors(run[k].db.mail, scope, agent, boxes[k])
    ensures forall k :: 0 <= k < i ==> InboxMoves(boxes[k], boxes[k + 1])
  {
    if i == 0 {
      boxes := [W.Box(0, {}, {})];
    } else {
      boxes := InboxIsABox(run, i - 1, scope, agent);
      RunReceiptsKnown(run, i - 1);
      assert StepAt(run, i - 1);
      var now, op :| Takes(run[i - 1], now, op, run[i]);
      var b := StepMirrored(run[i - 1], now, op, run[i], scope, agent, boxes[i - 1]);
      boxes := boxes + [b];
    }
  }
}
