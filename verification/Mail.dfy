/** The messages and deliveries tables: the one write path for mail, and what an inbox query sees. */
module Mail {
  import opened Wire

  /** One delivery row. The two timestamps are only ever tested for presence. */
  datatype Receipt = Receipt(noticed: bool, read: bool)

  /**
   * `log` holds every message ever written, in id order, so ids are never reused.
   * `kept` names the rows housekeeping has not deleted.
   */
  datatype Store = Store(log: seq<Message>, kept: set<nat>, receipts: map<(nat, Session), Receipt>)

  /** An untouched delivery of message `id` for each target. */
  function Deliveries(id: nat, targets: set<Session>): map<(nat, Session), Receipt> {
    map a | a in targets :: (id, a) := Receipt(false, false)
  }

  lemma OneMoreDelivery(id: nat, targets: set<Session>, a: Session)
    ensures Deliveries(id, targets)[(id, a) := Receipt(false, false)] == Deliveries(id, targets + {a})
  {
    var grown, all := Deliveries(id, targets)[(id, a) := Receipt(false, false)], Deliveries(id, targets + {a});
    forall k: (nat, Session) ensures k in all <==> k.0 == id && k.1 in targets + {a} {
      assert k == (k.0, k.1);
    }
    forall k: (nat, Session) ensures k in grown <==> k in all {
      assert k == (k.0, k.1);
    }
  }

  /** sendToScope's write: one message and one delivery per target. */
  function Posted(m: Store, message: Message, targets: set<Session>): Store {
    var id := |m.log|;
    Store(m.log + [message], m.kept + {id}, m.receipts + Deliveries(id, targets))
  }

  /** A sender's scope is stamped only on mail that crosses workspaces. */
  function Stamped(from: Address, toScope: Scope): Option<Scope> {
    if toScope != from.scope then Some(from.scope) else None
  }

  /** Row `id` of the join of deliveries and messages that every inbox query reads. */
  predicate Delivered(m: Store, scope: Scope, agent: Session, id: nat) {
    id < |m.log| && id in m.kept && (id, agent) in m.receipts && m.log[id].scope == scope
  }

  predicate Unread(m: Store, scope: Scope, agent: Session, id: nat) {
    Delivered(m, scope, agent, id) && !m.receipts[(id, agent)].read
  }

  predicate Unnoticed(m: Store, scope: Scope, agent: Session, id: nat) {
    Unread(m, scope, agent, id) && !m.receipts[(id, agent)].noticed
  }

  function MarkRead(m: Store, agent: Session, ids: set<nat>): Store {
    m.(receipts := map k | k in m.receipts ::
      if k.1 == agent && k.0 in ids then m.receipts[k].(read := true) else m.receipts[k])
  }

  function MarkNoticed(m: Store, agent: Session, ids: set<nat>): Store {
    m.(receipts := map k | k in m.receipts ::
      if k.1 == agent && k.0 in ids then m.receipts[k].(noticed := true) else m.receipts[k])
  }

  const DAY := 86400

  /** Every delivery of the message has been read, and it has at least one. */
  predicate ReadByAll(m: Store, id: nat) {
    && (exists k :: k in m.receipts && k.0 == id)
    && (forall k :: k in m.receipts && k.0 == id ==> m.receipts[k].read)
  }

  /** The two message purges of Housekeep: a week once read, a month regardless. */
  predicate Purgeable(m: Store, now: int, id: nat) {
    && id < |m.log|
    && (m.log[id].createdAt < now - 30 * DAY || (m.log[id].createdAt < now - 7 * DAY && ReadByAll(m, id)))
  }

  function PurgeMessages(m: Store, now: int): Store {
    m.(kept := set id | id in m.kept && !Purgeable(m, now, id))
  }

  /** Deliveries without a message, or whose recipient has no row left, are dropped. */
  function PurgeReceipts(m: Store, recipients: set<Session>): Store {
    m.(receipts := map k | k in m.receipts && k.0 in m.kept && k.1 in recipients :: m.receipts[k])
  }

  /** Queries order by (created_at, id); with a clock that never runs back this is id order. */
  ghost predicate Chronological(log: seq<Message>) {
    forall i, j :: 0 <= i < j < |log| ==> log[i].createdAt <= log[j].createdAt
  }
}
