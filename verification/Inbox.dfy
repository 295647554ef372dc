/** Reading, peeking and noticing: what one inbox sees, and that no delivery is ever handed out twice or lost. */
module Inbox {
  import opened Wire
  import opened Ledger
  import opened LedgerRuns
  import opened LedgerInvariant
  import opened LedgerTheorems
  import Mail

  // ---------------------------------------------------------------- the rows of an inbox query

  predicate Ascending(ids: seq<nat>) {
    forall i, j :: 0 <= i < j < |ids| ==> ids[i] < ids[j]
  }

  predicate InLog(log: seq<Message>, ids: seq<nat>) {
    forall k :: 0 <= k < |ids| ==> ids[k] < |log|
  }

  lemma AscendingAppend(ids: seq<nat>, last: nat)
    requires Ascending(ids) && forall id :: id in ids ==> id < last
    ensures Ascending(ids + [last]) && ids + [] == ids
  {
    assert forall i :: 0 <= i < |ids| ==> ids[i] in ids;
  }

  /** The rows below `n` a query keeps: exactly those, each once, oldest first. */
  function Select(n: nat, keep: nat -> bool): (ids: seq<nat>)
    ensures forall id: nat :: id in ids <==> id < n && keep(id)
    ensures Ascending(ids) && forall k :: 0 <= k < |ids| ==> ids[k] < n
  {
    if n == 0 then []
    else
      var before := Select(n - 1, keep);
      AscendingAppend(before, n - 1);
      before + (if keep(n - 1) then [n - 1] else [])
  }

  function UnreadIds(m: Mail.Store, scope: Scope, agent: Session): (ids: seq<nat>)
    ensures forall id: nat :: id in ids <==> Mail.Unread(m, scope, agent, id)
    ensures Ascending(ids) && InLog(m.log, ids)
  {
    Select(|m.log|, (id: nat) => Mail.Unread(m, scope, agent, id))
  }

  function UnnoticedIds(m: Mail.Store, scope: Scope, agent: Session): (ids: seq<nat>)
    ensures forall id: nat :: id in ids <==> Mail.Unnoticed(m, scope, agent, id)
    ensures Ascending(ids) && InLog(m.log, ids)
  {
    Select(|m.log|, (id: nat) => Mail.Unnoticed(m, scope, agent, id))
  }

  lemma SameSets(m: Mail.Store, scope: Scope, agent: Session)
    ensures (set id | id in UnreadIds(m, scope, agent)) == UnreadSet(m, scope, agent)
    ensures (set id | id in UnnoticedIds(m, scope, agent)) == UnnoticedSet(m, scope, agent)
  {
  }

  /** Does a peek beyond cursor `afterId` see row `id`? The row's own message id is `id + 1`. */
  predicate Peeked(m: Mail.Store, scope: Scope, agent: Session, afterId: nat, skipLedger: bool, id: nat) {
    Mail.Unread(m, scope, agent, id) && id + 1 > afterId && !(skipLedger && m.log[id].task.Some?)
  }

  function PeekedIds(m: Mail.Store, scope: Scope, agent: Session, afterId: nat, skipLedger: bool): (ids: seq<nat>)
    ensures forall id: nat :: id in ids <==> Peeked(m, scope, agent, afterId, skipLedger, id)
    ensures Ascending(ids) && InLog(m.log, ids)
  {
    Select(|m.log|, (id: nat) => Peeked(m, scope, agent, afterId, skipLedger, id))
  }

  /** The sender names of the listed rows. */
  function Names(log: seq<Message>, name: Message -> string, ids: seq<nat>): set<string>
    requires InLog(log, ids)
  {
    set k | 0 <= k < |ids| :: name(log[ids[k]])
  }

  /** A broker's read drops what only the redelivery queue may hand out. */
  function HandedBack(log: seq<Message>, ids: seq<nat>, skipLedger: bool): seq<Message>
    requires InLog(log, ids)
  {
    if ids == [] then []
    else
      var last := ids[|ids| - 1];
      HandedBack(log, ids[..|ids| - 1], skipLedger) + (if skipLedger && log[last].task.Some? then [] else [log[last]])
  }

  /** The read loop: every row is seen, and all but skipped ledger mail is handed back. */
  method CollectRows(log: seq<Message>, rows: seq<nat>, skipLedger: bool) returns (seen: seq<nat>, out: seq<Message>)
    requires InLog(log, rows)
    ensures seen == rows && out == HandedBack(log, rows, skipLedger)
  {
    seen, out := [], [];
    for i := 0 to |rows|
      invariant seen == rows[..i] && out == HandedBack(log, rows[..i], skipLedger)
    {
      seen := seen + [rows[i]];
      assert rows[..i + 1][..i] == rows[..i];
      if skipLedger && log[rows[i]].task.Some? { continue; }
      out := out + [log[rows[i]]];
    }
    assert rows[..|rows|] == rows;
  }

  // ---------------------------------------------------------------- what a read shows

  function MessagesAt(log: seq<Message>, ids: seq<nat>): seq<Message>
    requires InLog(log, ids)
  {
    if ids == [] then [] else MessagesAt(log, ids[..|ids| - 1]) + [log[ids[|ids| - 1]]]
  }

  lemma {:induction false} MessagesAtAre(log: seq<Message>, ids: seq<nat>)
    requires InLog(log, ids)
    ensures |MessagesAt(log, ids)| == |ids| && forall k :: 0 <= k < |ids| ==> MessagesAt(log, ids)[k] == log[ids[k]]
  {
    if ids != [] { MessagesAtAre(log, ids[..|ids| - 1]); }
  }

  /** The rows a read shows: everything unread, but to a broker no ledger mail. */
  function ShownIds(m: Mail.Store, scope: Scope, agent: Session, skipLedger: bool): (ids: seq<nat>)
    ensures forall id: nat ::
      id in ids <==> Mail.Unread(m, scope, agent, id) && (skipLedger ==> m.log[id].task.None?)
    ensures Ascending(ids) && InLog(m.log, ids)
  {
    Select(|m.log|, (id: nat) => Mail.Unread(m, scope, agent, id) && (skipLedger ==> m.log[id].task.None?))
  }

  /** The listed rows that are shown. */
  function Kept(log: seq<Message>, ids: seq<nat>, skipLedger: bool): seq<nat>
    requires InLog(log, ids)
  {
    if ids == [] then []
    else
      var last := ids[|ids| - 1];
      Kept(log, ids[..|ids| - 1], skipLedger) + (if skipLedger && log[last].task.Some? then [] else [last])
  }

  lemma {:induction false} KeptAre(log: seq<Message>, ids: seq<nat>, skipLedger: bool)
    requires InLog(log, ids) && Ascending(ids)
    ensures forall id :: id in Kept(log, ids, skipLedger) <==> id in ids && (skipLedger ==> log[id].task.None?)
    ensures Ascending(Kept(log, ids, skipLedger)) && InLog(log, Kept(log, ids, skipLedger))
  {
    if ids != [] {
      var front, last := ids[..|ids| - 1], ids[|ids| - 1];
      KeptAre(log, front, skipLedger);
      assert ids == front + [last];
      AscendingAppend(Kept(log, front, skipLedger), last);
    }
  }

  lemma {:induction false} KeptAreHandedBack(log: seq<Message>, ids: seq<nat>, skipLedger: bool)
    requires InLog(log, ids) && InLog(log, Kept(log, ids, skipLedger)) && Ascending(ids)
    ensures HandedBack(log, ids, skipLedger) == MessagesAt(log, Kept(log, ids, skipLedger))
  {
    if ids != [] {
      var front, last := ids[..|ids| - 1], ids[|ids| - 1];
      var kept := Kept(log, front, skipLedger);
      KeptAre(log, front, skipLedger);
      KeptAreHandedBack(log, front, skipLedger);
      assert (kept + [last])[..|kept|] == kept && kept + [] == kept;
      assert MessagesAt(log, kept) + [] == MessagesAt(log, kept);
    }
  }

  lemma HasFirst(a: seq<nat>)
    ensures a != [] ==> a[0] in a
  {
  }

  /** An ascending list is known by its members: the last is the greatest, and so on down. */
  lemma {:induction false} AscendingUnique(a: seq<nat>, b: seq<nat>)
    requires Ascending(a) && Ascending(b) && forall id :: id in a <==> id in b
    ensures a == b
  {
    if a == [] {
      HasFirst(b);
    } else {
      assert a[|a| - 1] in b;
      SameLast(a, b);
      WithoutLast(a);
      WithoutLast(b);
      AscendingUnique(a[..|a| - 1], b[..|b| - 1]);
    }
  }

  lemma SameLast(a: seq<nat>, b: seq<nat>)
    requires a != [] && b != [] && Ascending(a) && Ascending(b) && forall id :: id in a <==> id in b
    ensures a[|a| - 1] == b[|b| - 1]
  {
    assert a[|a| - 1] in b && b[|b| - 1] in a;
  }

  lemma WithoutLast(a: seq<nat>)
    requires a != [] && Ascending(a)
    ensures var front := a[..|a| - 1];
      a == front + [a[|a| - 1]] && Ascending(front) && forall id :: id in front <==> id in a && id != a[|a| - 1]
  {
    assert a == a[..|a| - 1] + [a[|a| - 1]];
  }

  /** A read hands back exactly the messages of those rows, in order. */
  lemma ReadShows(m: Mail.Store, scope: Scope, agent: Session, skipLedger: bool)
    ensures var out := HandedBack(m.log, UnreadIds(m, scope, agent), skipLedger);
      var shown := ShownIds(m, scope, agent, skipLedger);
      out == MessagesAt(m.log, shown) && |out| == |shown| && forall k :: 0 <= k < |out| ==> out[k] == m.log[shown[k]]
    ensures !skipLedger ==> ShownIds(m, scope, agent, skipLedger) == UnreadIds(m, scope, agent)
  {
    var unread, shown := UnreadIds(m, scope, agent), ShownIds(m, scope, agent, skipLedger);
    KeptAre(m.log, unread, skipLedger);
    KeptAreHandedBack(m.log, unread, skipLedger);
    AscendingUnique(Kept(m.log, unread, skipLedger), shown);
    MessagesAtAre(m.log, shown);
    if !skipLedger { AscendingUnique(shown, unread); }
  }

  // ---------------------------------------------------------------- notices

  /** One line per direct sender, with the ids it covers and the newest body; one line per broadcast. */
  datatype Notice = Direct(from: string, ids: seq<nat>, newest: Body) | Broadcast(from: string, body: Body)

  /** The ids of the direct messages among `ids` that `from` sent. */
  function SentBy(log: seq<Message>, name: Message -> string, ids: seq<nat>, from: string): seq<nat>
    requires InLog(log, ids)
  {
    if ids == [] then []
    else
      var last := ids[|ids| - 1];
      SentBy(log, name, ids[..|ids| - 1], from) + (if log[last].to.Some? && name(log[last]) == from then [last] else [])
  }

  function Broadcasts(log: seq<Message>, name: Message -> string, ids: seq<nat>): seq<Notice>
    requires InLog(log, ids)
  {
    if ids == [] then []
    else
      var m := log[ids[|ids| - 1]];
      Broadcasts(log, name, ids[..|ids| - 1]) + (if m.to.None? then [Broadcast(name(m), m.body)] else [])
  }

  lemma {:induction false} SentByExact(log: seq<Message>, name: Message -> string, ids: seq<nat>, from: string)
    requires InLog(log, ids)
    ensures forall id :: id in SentBy(log, name, ids, from) <==> id in ids && log[id].to.Some? && name(log[id]) == from
    ensures Ascending(ids) ==> Ascending(SentBy(log, name, ids, from))
  {
    if ids != [] {
      var rest := ids[..|ids| - 1];
      SentByExact(log, name, rest, from);
      assert ids == rest + [ids[|ids| - 1]];
      if Ascending(ids) {
        assert Ascending(rest);
        AscendingAppend(SentBy(log, name, rest, from), ids[|ids| - 1]);
      }
    }
  }

  /** The direct notices of a batch: each sender once, each with exactly its own messages. */
  ghost predicate DirectPart(log: seq<Message>, name: Message -> string, ids: seq<nat>, out: seq<Notice>)
    requires InLog(log, ids)
  {
    && (forall k :: 0 <= k < |out| ==>
          && out[k].Direct? && out[k].ids != [] && out[k].ids == SentBy(log, name, ids, out[k].from)
          && out[k].ids[|out[k].ids| - 1] < |log| && out[k].newest == log[out[k].ids[|out[k].ids| - 1]].body)
    && (forall j, k :: 0 <= j < k < |out| ==> out[j].from != out[k].from)
    && (forall id :: id in ids && log[id].to.Some? ==> exists k :: 0 <= k < |out| && out[k].from == name(log[id]))
  }

  /** A whole batch's notices: the senders' lines first, then one line per broadcast in order. */
  ghost predicate Announces(log: seq<Message>, name: Message -> string, ids: seq<nat>, out: seq<Notice>, directs: nat)
    requires InLog(log, ids)
  {
    directs <= |out| && DirectPart(log, name, ids, out[..directs]) && out[directs..] == Broadcasts(log, name, ids)
  }

  /** What the aggregation of a batch knows of one sender: its ids in order, and its newest body. */
  ghost predicate GroupedFor(log: seq<Message>, name: Message -> string, ids: seq<nat>, from: string,
                             dms: map<string, (seq<nat>, Body)>)
    requires InLog(log, ids)
  {
    && (from in dms <==> SentBy(log, name, ids, from) != [])
    && (from in dms ==>
          && dms[from].0 == SentBy(log, name, ids, from)
          && dms[from].0[|dms[from].0| - 1] < |log| && dms[from].1 == log[dms[from].0[|dms[from].0| - 1]].body)
  }

  ghost predicate Listed(dms: map<string, (seq<nat>, Body)>, senders: seq<string>) {
    && (forall k :: 0 <= k < |senders| ==> senders[k] in dms)
    && (forall from :: from in dms ==> from in senders)
    && (forall j, k :: 0 <= j < k < |senders| ==> senders[j] != senders[k])
  }

  ghost predicate Grouped(log: seq<Message>, name: Message -> string, ids: seq<nat>,
                          dms: map<string, (seq<nat>, Body)>, senders: seq<string>)
    requires InLog(log, ids)
  {
    (forall from :: GroupedFor(log, name, ids, from, dms)) && Listed(dms, senders)
  }

  function Own(m: Message, name: Message -> string, from: string, id: nat): seq<nat> {
    if m.to.Some? && name(m) == from then [id] else []
  }

  /** One more row adds to its own sender's list alone. */
  lemma SentByGrows(log: seq<Message>, name: Message -> string, ids: seq<nat>, id: nat, from: string)
    requires InLog(log, ids) && id < |log|
    ensures InLog(log, ids + [id])
    ensures SentBy(log, name, ids + [id], from) == SentBy(log, name, ids, from) + Own(log[id], name, from, id)
  {
    assert (ids + [id])[..|ids|] == ids;
  }

  /** Fold one direct message into its sender's entry. */
  method AddRow(log: seq<Message>, ghost before: seq<nat>, id: nat, name: Message -> string,
                dms: map<string, (seq<nat>, Body)>, senders: seq<string>)
    returns (dms': map<string, (seq<nat>, Body)>, senders': seq<string>)
    requires InLog(log, before + [id]) && InLog(log, before) && id < |log| && log[id].to.Some?
    requires Grouped(log, name, before, dms, senders)
    ensures Grouped(log, name, before + [id], dms', senders')
  {
    var own := name(log[id]);
    if own in dms {
      dms', senders' := dms[own := (dms[own].0 + [id], log[id].body)], senders;
    } else {
      dms', senders' := dms[own := ([id], log[id].body)], senders + [own];
    }
    forall from ensures GroupedFor(log, name, before + [id], from, dms') {
      SentByGrows(log, name, before, id, from);
      assert GroupedFor(log, name, before, from, dms);
    }
  }

  /** A broadcast leaves every sender's entry as it was. */
  lemma SkipRow(log: seq<Message>, name: Message -> string, ids: seq<nat>, id: nat,
                dms: map<string, (seq<nat>, Body)>, senders: seq<string>)
    requires InLog(log, ids) && id < |log| && log[id].to.None? && Grouped(log, name, ids, dms, senders)
    ensures InLog(log, ids + [id]) && Grouped(log, name, ids + [id], dms, senders)
  {
    forall from ensures GroupedFor(log, name, ids + [id], from, dms) {
      SentByGrows(log, name, ids, id, from);
      assert GroupedFor(log, name, ids, from, dms);
    }
  }

  /** Aggregate the rows of a batch: direct messages by sender, in order of first appearance, and broadcasts. */
  method GroupRows(log: seq<Message>, ids: seq<nat>, name: Message -> string)
    returns (dms: map<string, (seq<nat>, Body)>, senders: seq<string>, bcasts: seq<Notice>)
    requires InLog(log, ids)
    ensures Grouped(log, name, ids, dms, senders) && bcasts == Broadcasts(log, name, ids)
  {
    dms, senders, bcasts := map[], [], [];
    for i := 0 to |ids|
      invariant Grouped(log, name, ids[..i], dms, senders)
      invariant bcasts == Broadcasts(log, name, ids[..i])
    {
      assert ids[..i + 1] == ids[..i] + [ids[i]] && ids[..i + 1][..i] == ids[..i];
      if log[ids[i]].to.None? {
        SkipRow(log, name, ids[..i], ids[i], dms, senders);
        bcasts := bcasts + [Broadcast(name(log[ids[i]]), log[ids[i]].body)];
      } else {
        dms, senders := AddRow(log, ids[..i], ids[i], name, dms, senders);
      }
    }
    assert ids[..|ids|] == ids;
  }

  /** The direct notices, one line per sender. */
  method Lines(senders: seq<string>, dms: map<string, (seq<nat>, Body)>) returns (out: seq<Notice>)
    requires forall k :: 0 <= k < |senders| ==> senders[k] in dms
    ensures |out| == |senders|
    ensures forall k :: 0 <= k < |out| ==> out[k] == Direct(senders[k], dms[senders[k]].0, dms[senders[k]].1)
  {
    out := [];
    for i := 0 to |senders|
      invariant |out| == i
      invariant forall k :: 0 <= k < i ==> out[k] == Direct(senders[k], dms[senders[k]].0, dms[senders[k]].1)
    {
      out := out + [Direct(senders[i], dms[senders[i]].0, dms[senders[i]].1)];
    }
  }

  lemma GroupedIsDirect(log: seq<Message>, name: Message -> string, ids: seq<nat>,
                        dms: map<string, (seq<nat>, Body)>, senders: seq<string>, out: seq<Notice>)
    requires InLog(log, ids) && Grouped(log, name, ids, dms, senders) && |out| == |senders|
    requires forall k :: 0 <= k < |out| ==> out[k] == Direct(senders[k], dms[senders[k]].0, dms[senders[k]].1)
    ensures DirectPart(log, name, ids, out)
  {
    assert forall k :: 0 <= k < |out| ==> GroupedFor(log, name, ids, senders[k], dms);
    forall id | id in ids && log[id].to.Some? ensures exists k :: 0 <= k < |out| && out[k].from == name(log[id]) {
      SentByExact(log, name, ids, name(log[id]));
      assert id in SentBy(log, name, ids, name(log[id]));
      assert GroupedFor(log, name, ids, name(log[id]), dms);
      var k :| 0 <= k < |senders| && senders[k] == name(log[id]);
      assert out[k].from == name(log[id]);
    }
  }

  /** The notices of a batch: aggregate, then one line per sender and one per broadcast. */
  method Announce(log: seq<Message>, ids: seq<nat>, name: Message -> string)
    returns (out: seq<Notice>, ghost directs: nat)
    requires InLog(log, ids)
    ensures Announces(log, name, ids, out, directs)
  {
    var dms, senders, bcasts := GroupRows(log, ids, name);
    out := Lines(senders, dms);
    GroupedIsDirect(log, name, ids, dms, senders, out);
    directs := |out|;
    out := out + bcasts;
  }

  /** The id lists partition the batch's direct messages. */
  lemma DirectPartitions(log: seq<Message>, name: Message -> string, ids: seq<nat>, out: seq<Notice>, id: nat)
    returns (k: nat)
    requires InLog(log, ids)
    requires DirectPart(log, name, ids, out) && id in ids && log[id].to.Some?
    ensures k < |out| && id in out[k].ids
    ensures forall j :: 0 <= j < |out| && id in out[j].ids ==> j == k
  {
    k :| k < |out| && out[k].from == name(log[id]);
    forall j | 0 <= j < |out| ensures id in out[j].ids <==> out[j].from == name(log[id]) {
      SentByExact(log, name, ids, out[j].from);
    }
  }

  /** And a direct notice covers nothing but direct messages of its batch. */
  lemma DirectCoversOnly(log: seq<Message>, name: Message -> string, ids: seq<nat>, out: seq<Notice>, k: nat, id: nat)
    requires InLog(log, ids)
    requires DirectPart(log, name, ids, out) && k < |out| && id in out[k].ids
    ensures id in ids && log[id].to.Some? && name(log[id]) == out[k].from
  {
    SentByExact(log, name, ids, out[k].from);
  }

  /** Each broadcast of a batch has its own line, with its own words, in the order they were sent. */
  lemma {:induction false} BroadcastsExact(log: seq<Message>, name: Message -> string, ids: seq<nat>)
    returns (rows: seq<nat>)
    requires InLog(log, ids) && Ascending(ids)
    ensures forall id :: id in rows <==> id in ids && log[id].to.None?
    ensures Ascending(rows) && InLog(log, rows) && |Broadcasts(log, name, ids)| == |rows|
    ensures forall k :: 0 <= k < |rows| ==>
      Broadcasts(log, name, ids)[k] == Broadcast(name(log[rows[k]]), log[rows[k]].body)
  {
    rows := [];
    if ids != [] {
      var front, last := ids[..|ids| - 1], ids[|ids| - 1];
      rows := BroadcastsExact(log, name, front);
      assert ids == front + [last];
      AscendingAppend(rows, last);
      if log[last].to.None? { rows := rows + [last]; }
    }
  }

  // ---------------------------------------------------------------- conservation over runs

  /** Whatever happens, a delivery that is not unread never becomes unread; nor one that is not unnoticed. */
  lemma NeverUnreadAgain(d: Daemon, d': Daemon, scope: Scope, agent: Session, id: nat)
    requires Next(d, d') && id < |d.db.mail.log|
    ensures Mail.Unread(d'.db.mail, scope, agent, id) ==> Mail.Unread(d.db.mail, scope, agent, id)
    ensures Mail.Unnoticed(d'.db.mail, scope, agent, id) ==> Mail.Unnoticed(d.db.mail, scope, agent, id)
  {
    LogGrows(d, d');
    var now, op :| Takes(d, now, op, d');
    MailOnlyAges(d, now, op, d', id, agent);
  }

  /** How one transaction may change an old message's row and receipts. */
  ghost predicate Ages(m: Mail.Store, m': Mail.Store, id: nat, agent: Session) {
    && m.log <= m'.log && id < |m.log|
    && (id in m'.kept ==> id in m.kept)
    && ((id, agent) in m'.receipts ==>
          && (id, agent) in m.receipts
          && (m.receipts[(id, agent)].read ==> m'.receipts[(id, agent)].read)
          && (m.receipts[(id, agent)].noticed ==> m'.receipts[(id, agent)].noticed))
  }

  predicate Untouched(m: Mail.Store, m': Mail.Store, id: nat, agent: Session) {
    && m.log <= m'.log && id < |m.log| && (id in m'.kept <==> id in m.kept)
    && ((id, agent) in m.receipts <==> (id, agent) in m'.receipts)
    && ((id, agent) in m.receipts ==> m'.receipts[(id, agent)] == m.receipts[(id, agent)])
  }

  lemma MailOnlyAges(d: Daemon, now: int, op: Op, d': Daemon, id: nat, agent: Session)
    requires Takes(d, now, op, d') && id < |d.db.mail.log|
    ensures Ages(d.db.mail, d'.db.mail, id, agent)
  {
    match op
    case Tasks(t) =>
      var w := TaskOpWrites(d.db, now, t);
      WriteLeavesMail(d.db, now, w, id, agent);
    case House(h) => HouseMailAges(d, now, h, id, agent);
    case Mails(m) => MailAges(d.db, now, m, id, agent);
    case Rows(_) =>
  }

  lemma HouseMailAges(d: Daemon, now: int, op: HouseOp, id: nat, agent: Session)
    requires HouseEnabled(d, now, op) && id < |d.db.mail.log|
    ensures Ages(d.db.mail, HouseAfter(d, now, op).db.mail, id, agent)
  {
    if op.SweepOne? {
      var w := SweepWrites(d.db, now, d.sweeper.todo[0]);
      WriteLeavesMail(d.db, now, w, id, agent);
    }
  }

  lemma MailAges(s: Store, now: int, op: MailOp, id: nat, agent: Session)
    requires id < |s.mail.log|
    ensures Ages(s.mail, MailAfter(s, now, op), id, agent)
  {
  }

  /** A task transaction adds mail and touches none that is there. */
  lemma WriteLeavesMail(s: Store, now: int, w: Write, id: nat, agent: Session)
    requires WriteSound(s, now, w) && id < |s.mail.log|
    ensures Untouched(s.mail, Wrote(s, now, w).mail, id, agent)
  {
  }

  ghost predicate TakesMail(d: Daemon, op: MailOp, d': Daemon) {
    exists now :: Takes(d, now, Mails(op), d')
  }

  /** Step `i` of a run is an ordinary read of this inbox. */
  ghost predicate ReadsAt(run: seq<Daemon>, i: nat, scope: Scope, agent: Session)
    requires i < |run| - 1
  {
    TakesMail(run[i], ReadMail(scope, agent), run[i + 1])
  }

  ghost predicate NoticesAt(run: seq<Daemon>, i: nat, scope: Scope, agent: Session)
    requires i < |run| - 1
  {
    TakesMail(run[i], NoticeMail(scope, agent), run[i + 1])
  }

  lemma {:induction false} UnreadEarlier(run: seq<Daemon>, i: nat, j: nat, scope: Scope, agent: Session, id: nat)
    requires IsRun(run) && i <= j < |run| && id < |run[i].db.mail.log|
    ensures Mail.Unread(run[j].db.mail, scope, agent, id) ==> Mail.Unread(run[i].db.mail, scope, agent, id)
    ensures Mail.Unnoticed(run[j].db.mail, scope, agent, id) ==> Mail.Unnoticed(run[i].db.mail, scope, agent, id)
  {
    if i < j {
      UnreadEarlier(run, i, j - 1, scope, agent, id);
      RunLogGrows(run, i, j - 1);
      assert StepAt(run, j - 1);
      NeverUnreadAgain(run[j - 1], run[j], scope, agent, id);
    }
  }

  /** No delivery is returned by two reads, whatever sends, peeks, notices, purges and restarts come between. */
  lemma ReadAtMostOnce(run: seq<Daemon>, i: nat, j: nat, scope: Scope, agent: Session, id: nat)
    requires IsRun(run) && i < j < |run| - 1
    requires ReadsAt(run, i, scope, agent) && id in UnreadIds(run[i].db.mail, scope, agent)
    ensures id !in UnreadIds(run[j].db.mail, scope, agent)
  {
    RunLogGrows(run, i, i + 1);
    UnreadEarlier(run, i + 1, j, scope, agent, id);
  }

  /** No delivery enters two notice batches. */
  lemma NoticedAtMostOnce(run: seq<Daemon>, i: nat, j: nat, scope: Scope, agent: Session, id: nat)
    requires IsRun(run) && i < j < |run| - 1
    requires NoticesAt(run, i, scope, agent) && id in UnnoticedIds(run[i].db.mail, scope, agent)
    ensures id !in UnnoticedIds(run[j].db.mail, scope, agent)
  {
    RunLogGrows(run, i, i + 1);
    UnreadEarlier(run, i + 1, j, scope, agent, id);
  }

  /** And none is lost: a delivery stops being unread only by being read, or by a purge of its message or recipient. */
  lemma OnlyReadsConsume(d: Daemon, now: int, op: Op, d': Daemon, scope: Scope, agent: Session, id: nat)
    requires Takes(d, now, op, d')
    requires Mail.Unread(d.db.mail, scope, agent, id) && !Mail.Unread(d'.db.mail, scope, agent, id)
    ensures || op == Mails(ReadMail(scope, agent))
            || (op == House(MailPurge) && Mail.Purgeable(d.db.mail, d.sweeper.cutoff, id))
            || (op == House(DeliveryPurge) && forall row :: row in d.db.agents ==> row.agent != agent)
  {
    match op
    case Tasks(t) =>
      var w := TaskOpWrites(d.db, now, t);
      WriteLeavesMail(d.db, now, w, id, agent);
      assert false;
    case House(h) =>
      if h.SweepOne? {
        var w := SweepWrites(d.db, now, d.sweeper.todo[0]);
        WriteLeavesMail(d.db, now, w, id, agent);
        assert false;
      }
    case _ =>
  }

  /** A delivery leaves the notices only by being noticed, by being read, or by such a purge. */
  lemma OnlyNoticesHide(d: Daemon, now: int, op: Op, d': Daemon, scope: Scope, agent: Session, id: nat)
    requires Takes(d, now, op, d')
    requires Mail.Unnoticed(d.db.mail, scope, agent, id) && !Mail.Unnoticed(d'.db.mail, scope, agent, id)
    ensures || op == Mails(NoticeMail(scope, agent)) || op == Mails(ReadMail(scope, agent))
            || (op == House(MailPurge) && Mail.Purgeable(d.db.mail, d.sweeper.cutoff, id))
            || (op == House(DeliveryPurge) && forall row :: row in d.db.agents ==> row.agent != agent)
  {
    match op
    case Tasks(t) =>
      var w := TaskOpWrites(d.db, now, t);
      WriteLeavesMail(d.db, now, w, id, agent);
      assert false;
    case House(h) =>
      if h.SweepOne? {
        var w := SweepWrites(d.db, now, d.sweeper.todo[0]);
        WriteLeavesMail(d.db, now, w, id, agent);
        assert false;
      }
    case _ =>
  }
}
