/** The host broker's write-ahead journal: a bounded map kept equal to one sealed file. */
module Journal {
  import opened Wire

  const MAX_RECORDS := 8192
  const JOURNAL_LIMIT := 0x40_0000

  datatype RecordState = Received | Accepted | Terminal | Delivered

  /** The launch frame; a tombstone keeps only its task id. */
  datatype Launch = Launch(task: TaskId, runtime: string, brief: string, replyTo: Option<Address>, deadlineS: int)

  datatype Child = Child(ref: Address, secret: Secret)

  datatype Record = Record(launch: Launch, child: Option<Child>, state: RecordState, terminal: Option<Body>)

  type Records = map<TaskId, Record>

  /** validateRecord: what each state carries. */
  predicate ValidRecord(id: TaskId, r: Record) {
    && id == r.launch.task
    && match r.state
       case Received => r.child.None? && r.terminal.None?
       case Accepted => r.child.Some?
       case Terminal => r.terminal.Some?
       case Delivered => r.child.None? && r.terminal.None?
  }

  function Tombstone(id: TaskId): Record {
    Record(Launch(id, "", "", None, 0), None, Delivered, None)
  }

  /** A delivered record is stored as a bare tombstone. */
  function Stored(r: Record): Record {
    if r.state == Delivered then Tombstone(r.launch.task) else r
  }

  /** What has been taken out so far: a prefix, and each entry as it was. */
  ghost predicate Evicted(was: Records, except: TaskId, evicted: Records) {
    Prefix(was, except, evicted.Keys) && forall k :: k in evicted ==> k in was && evicted[k] == was[k]
  }

  /** The sealed length of a journal, or None when marshalling or sealing fails. */
  type Sealer = Records -> Option<nat>

  predicate Evictable(records: Records, except: TaskId, id: TaskId) {
    id in records && id != except && records[id].state == Delivered
  }

  ghost predicate FirstEvictable(records: Records, except: TaskId, id: TaskId) {
    Evictable(records, except, id) && forall other :: Evictable(records, except, other) ==> id <= other
  }

  /** A prefix of the id-sorted tombstones other than `except`. */
  ghost predicate Prefix(records: Records, except: TaskId, evicted: set<TaskId>) {
    && (forall id :: id in evicted ==> Evictable(records, except, id))
    && (forall a: TaskId, b: TaskId :: b in evicted && a < b && Evictable(records, except, a) ==> a in evicted)
  }

  function Without(records: Records, evicted: set<TaskId>, r: Record): Records {
    (records - evicted)[r.launch.task := r]
  }

  function Previous(records: Records, id: TaskId): Option<Record> {
    if id in records then Some(records[id]) else None
  }

  predicate WithinLimits(seal: Sealer, limit: nat, records: Records) {
    |records| <= MAX_RECORDS && seal(records).Some? && seal(records).value <= limit
  }

  ghost predicate NoneShorter(seal: Sealer, limit: nat, records: Records, r: Record, evicted: set<TaskId>) {
    forall fewer | Prefix(records, r.launch.task, fewer) && fewer < evicted ::
      !WithinLimits(seal, limit, Without(records, fewer, r))
  }

  /** `evicted` is the shortest sufficient prefix. */
  ghost predicate Shortest(seal: Sealer, limit: nat, records: Records, r: Record, evicted: set<TaskId>) {
    && Prefix(records, r.launch.task, evicted)
    && WithinLimits(seal, limit, Without(records, evicted, r))
    && NoneShorter(seal, limit, records, r, evicted)
  }

  ghost predicate NoneSuffices(seal: Sealer, limit: nat, records: Records, r: Record) {
    forall evicted | Prefix(records, r.launch.task, evicted) ::
      !WithinLimits(seal, limit, Without(records, evicted, r))
  }

  /** Every shorter prefix that makes room for the count can be sealed. */
  ghost predicate ShorterSeal(seal: Sealer, records: Records, r: Record, evicted: set<TaskId>) {
    forall fewer | Prefix(records, r.launch.task, fewer) && fewer < evicted ::
      |Without(records, fewer, r)| <= MAX_RECORDS ==> seal(Without(records, fewer, r)).Some?
  }

  /** What writing takes: a disk, and a sealed form that is neither empty nor above four megabytes. */
  predicate Writable(size: nat, diskOk: bool) {
    diskOk && 0 < size <= JOURNAL_LIMIT
  }

  /** A put can be made: the record is valid, enough tombstones can go, and what is left seals and can be written. */
  ghost predicate CanPut(seal: Sealer, limit: nat, records: Records, r: Record, diskOk: bool) {
    && ValidRecord(r.launch.task, r)
    && exists evicted ::
         && Shortest(seal, limit, records, r, evicted) && ShorterSeal(seal, records, r, evicted)
         && Writable(seal(Without(records, evicted, r)).value, diskOk)
  }

  datatype PutError = Inconsistent | Full | SealFailed | WriteFailed

  /** Success exactly when the put can be made, and otherwise the reason why not. */
  ghost predicate Explained(err: Option<PutError>, seal: Sealer, limit: nat, was: Records, r: Record, diskOk: bool) {
    && (err.None? <==> CanPut(seal, limit, was, r, diskOk))
    && (err == Some(Inconsistent) <==> !ValidRecord(r.launch.task, r))
    && (err == Some(Full) ==> NoneSuffices(seal, limit, was, r))
    && (err == Some(SealFailed) ==>
          exists evicted :: Prefix(was, r.launch.task, evicted) && seal(Without(was, evicted, r)).None?)
    && (err == Some(WriteFailed) ==>
          exists evicted :: Shortest(seal, limit, was, r, evicted)
                            && !Writable(seal(Without(was, evicted, r)).value, diskOk))
  }

  /** NewFileJournal's acceptance of a decoded file. */
  predicate Loadable(records: Records) {
    |records| <= MAX_RECORDS && forall id :: id in records ==> ValidRecord(id, records[id])
  }

  class FileJournal {
    var records: Records
    var file: Records  // what the last successful write left on disk
    const seal: Sealer
    const limit: nat

    ghost predicate Valid()
      reads this
    {
      records == file && Loadable(records)
    }

    /** NewFileJournal on the contents of an existing file, or on no file at all. */
    constructor (content: Records, seal: Sealer, limit: nat)
      requires Loadable(content)
      ensures Valid() && records == content && this.seal == seal && this.limit == limit
    {
      records, file := content, content;
      this.seal, this.limit := seal, limit;
    }

    /** Drop the tombstone with the lowest id, other than `except`; false when there is none. */
    method EvictDelivered(except: TaskId, evicted: Records) returns (ok: bool, evicted': Records, ghost gone: TaskId)
      modifies this`records
      ensures ok <==> exists id :: Evictable(old(records), except, id)
      ensures !ok ==> records == old(records) && evicted' == evicted
      ensures ok ==> FirstEvictable(old(records), except, gone)
      ensures ok ==> records == old(records) - {gone} && evicted' == evicted[gone := old(records)[gone]]
    {
      var ids := SortedIds(records.Keys);
      for k := 0 to |ids|
        invariant records == old(records)
        invariant forall j :: 0 <= j < k ==> !Evictable(records, except, ids[j])
      {
        if ids[k] != except && records[ids[k]].state == Delivered {
          assert Evictable(old(records), except, ids[k]);
          evicted' := evicted[ids[k] := records[ids[k]]];
          records := records - {ids[k]};
          return true, evicted', ids[k];
        }
      }
      return false, evicted, 0;
    }

    /** Undo an insert: `was` is the map it started from. */
    method Restore(record: Record, previous: Option<Record>, evicted: Records, ghost was: Records)
      requires Evicted(was, record.launch.task, evicted) && records == Without(was, evicted.Keys, record)
      requires previous == Previous(was, record.launch.task)
      modifies this`records
      ensures records == was
    {
      RestoreUndoes(was, record, previous, evicted);
      records := records - {record.launch.task};
      if previous.Some? { records := records[record.launch.task := previous.value]; }
      records := records + evicted;
    }

    /** Set the record, first making room when a new one would exceed the count. */
    method Insert(record: Record, existed: bool) returns (ok: bool, evicted: Records)
      requires |records| <= MAX_RECORDS && existed == (record.launch.task in records)
      modifies this`records
      ensures !ok ==> records == old(records) && NoneSuffices(seal, limit, old(records), record)
      ensures ok ==> Evicted(old(records), record.launch.task, evicted)
      ensures ok ==> NoneShorter(seal, limit, old(records), record, evicted.Keys)
      ensures ok ==> |records| <= MAX_RECORDS && records == Without(old(records), evicted.Keys, record)
      ensures ok ==> ShorterSeal(seal, old(records), record, evicted.Keys)
    {
      ghost var was := records;
      if !existed && |records| >= MAX_RECORDS {
        ghost var gone;
        ok, evicted, gone := EvictDelivered(record.launch.task, map[]);
        if !ok {
          CountFull(seal, limit, was, record);
          return;
        }
        assert evicted == map[gone := was[gone]] && evicted.Keys == {gone};
        CountShrunk(seal, limit, was, record, gone);
      } else {
        ok, evicted := true, map[];
        CountFits(seal, limit, was, record);
      }
      records := records[record.launch.task := record];
    }

    /** Seal the map, evicting one tombstone at a time until the sealed form is small enough. */
    method SealWithin(record: Record, evicted: Records, ghost was: Records)
      returns (err: Option<PutError>, evicted': Records, size: nat)
      requires |records| <= MAX_RECORDS && records == Without(was, evicted.Keys, record)
      requires Evicted(was, record.launch.task, evicted) && NoneShorter(seal, limit, was, record, evicted.Keys)
      requires ShorterSeal(seal, was, record, evicted.Keys)
      modifies this`records
      ensures Evicted(was, record.launch.task, evicted') && records == Without(was, evicted'.Keys, record)
      ensures err.None? ==> seal(records) == Some(size) && Shortest(seal, limit, was, record, evicted'.Keys)
      ensures err.None? ==> ShorterSeal(seal, was, record, evicted'.Keys)
      ensures err.Some? ==> err == Some(Full) || err == Some(SealFailed)
      ensures err == Some(Full) ==> NoneSuffices(seal, limit, was, record)
      ensures err == Some(SealFailed) ==>
        |records| <= MAX_RECORDS && seal(records).None? && NoneShorter(seal, limit, was, record, evicted'.Keys)
    {
      evicted' := evicted;
      while true
        invariant |records| <= MAX_RECORDS && records == Without(was, evicted'.Keys, record)
        invariant Evicted(was, record.launch.task, evicted') && NoneShorter(seal, limit, was, record, evicted'.Keys)
        invariant ShorterSeal(seal, was, record, evicted'.Keys)
        decreases |records|
      {
        var sealed := seal(records);
        if sealed.None? { return Some(SealFailed), evicted', 0; }
        size := sealed.value;
        if size <= limit { return None, evicted', size; }
        ghost var before := evicted';
        var ok;
        ghost var gone;
        ok, evicted', gone := EvictDelivered(record.launch.task, evicted');
        if !ok {
          NothingLeft(seal, limit, was, record, before.Keys);
          return Some(Full), evicted', 0;
        }
        Shrunk(seal, limit, was, record, before, gone);
      }
    }

    /**
     * All or nothing: an error leaves map and file as they were, and success leaves both equal to
     * the old map with the record set, minus the shortest sufficient prefix of sorted tombstones.
     * And it succeeds exactly when it can.
     */
    method Put(r: Record, diskOk: bool) returns (err: Option<PutError>)
      requires Valid()
      modifies this
      ensures Valid()
      ensures err.Some? ==> records == old(records)
      ensures Explained(err, seal, limit, old(records), Stored(r), diskOk)
      ensures err.None? ==> exists evicted :: Shortest(seal, limit, old(records), Stored(r), evicted)
                                              && records == Without(old(records), evicted, Stored(r))
    {
      var record := Stored(r);
      var id := record.launch.task;
      if !ValidRecord(id, record) { return Some(Inconsistent); }
      var previous := Previous(records, id);
      ghost var was := records;
      var ok, evicted := Insert(record, previous.Some?);
      if !ok {
        FullDecides(seal, limit, was, record, diskOk);
        return Some(Full);
      }
      var size;
      err, evicted, size := SealWithin(record, evicted, was);
      if err.None? { SizeDecides(seal, limit, was, record, evicted.Keys, diskOk); }
      if err == Some(Full) { FullDecides(seal, limit, was, record, diskOk); }
      if err == Some(SealFailed) { UnsealedStops(seal, limit, was, record, evicted.Keys, diskOk); }
      if err.None? && (!diskOk || size == 0 || size > JOURNAL_LIMIT) { err := Some(WriteFailed); }
      if err.Some? {
        Restore(record, previous, evicted, was);
      } else {
        file := records;
        StoredLoads(was, evicted.Keys, record);
      }
    }
  }

  /** NewFileJournal: every record of the decoded file is validated, then the count. */
  method Load(content: Records, seal: Sealer, limit: nat) returns (j: FileJournal?)
    ensures j != null <==> Loadable(content)
    ensures j != null ==> fresh(j) && j.Valid() && j.records == content && j.seal == seal && j.limit == limit
  {
    var rest := content.Keys;
    while rest != {}
      invariant rest <= content.Keys
      invariant forall id :: id in content && id !in rest ==> ValidRecord(id, content[id])
      decreases rest
    {
      var id :| id in rest;
      if !ValidRecord(id, content[id]) { return null; }
      rest := rest - {id};
    }
    if |content| > MAX_RECORDS { return null; }
    j := new FileJournal(content, seal, limit);
  }

  /** A restart always succeeds, and knows exactly what the journal knew. */
  method Restart(j: FileJournal) returns (k: FileJournal?)
    requires j.Valid()
    ensures k != null && fresh(k) && k.Valid() && k.records == j.records
  {
    k := Load(j.file, j.seal, j.limit);
  }

  /** The next prefix after `before` adds the lowest tombstone that is left. */
  lemma NextPrefix(records: Records, except: TaskId, before: set<TaskId>, id: TaskId)
    requires Prefix(records, except, before) && id !in before && Evictable(records, except, id)
    requires forall other :: Evictable(records, except, other) && other !in before ==> id <= other
    ensures Prefix(records, except, before + {id})
    ensures forall fewer :: Prefix(records, except, fewer) && fewer < before + {id} ==> fewer <= before
  {
    forall fewer | Prefix(records, except, fewer) && fewer < before + {id} ensures id !in fewer {
      assert id in fewer ==> forall b :: b in before ==> b in fewer;
    }
  }

  /** Prefixes of one order are nested. */
  lemma PrefixesNest(records: Records, except: TaskId, a: set<TaskId>, b: set<TaskId>)
    requires Prefix(records, except, a) && Prefix(records, except, b)
    ensures a == b || a < b || b < a
  {
    if x: TaskId :| x in a && x !in b {
      forall y: TaskId | y in b ensures y in a {
        assert Evictable(records, except, x) && Evictable(records, except, y);
      }
      SameOrSmaller(b, a);
    } else {
      SameOrSmaller(a, b);
    }
  }

  lemma SameOrSmaller(a: set<TaskId>, b: set<TaskId>)
    requires a <= b
    ensures a == b || a < b
  {
    assert b <= a ==> a == b;
  }

  /** There is one shortest sufficient prefix, so what it seals to decides. */
  lemma SizeDecides(seal: Sealer, limit: nat, was: Records, r: Record, evicted: set<TaskId>, diskOk: bool)
    requires ValidRecord(r.launch.task, r)
    requires Shortest(seal, limit, was, r, evicted) && ShorterSeal(seal, was, r, evicted)
    ensures var ok := Writable(seal(Without(was, evicted, r)).value, diskOk);
      Explained(if ok then None else Some(WriteFailed), seal, limit, was, r, diskOk)
  {
    forall other | Shortest(seal, limit, was, r, other) ensures other == evicted {
      PrefixesNest(was, r.launch.task, other, evicted);
    }
  }

  /** A form that cannot be sealed, met before any that fits, leaves nothing to write. */
  lemma UnsealedStops(seal: Sealer, limit: nat, was: Records, r: Record, stop: set<TaskId>, diskOk: bool)
    requires ValidRecord(r.launch.task, r)
    requires Prefix(was, r.launch.task, stop) && NoneShorter(seal, limit, was, r, stop)
    requires |Without(was, stop, r)| <= MAX_RECORDS && seal(Without(was, stop, r)).None?
    ensures Explained(Some(SealFailed), seal, limit, was, r, diskOk)
  {
    forall evicted | Shortest(seal, limit, was, r, evicted) ensures !ShorterSeal(seal, was, r, evicted) {
      UnsealedBefore(seal, limit, was, r, stop, evicted);
    }
  }

  /** What fits is no sooner than what does not, when nothing sooner than that fits. */
  lemma FitsLater(seal: Sealer, limit: nat, was: Records, r: Record, stop: set<TaskId>, evicted: set<TaskId>)
    requires stop == evicted || stop < evicted || evicted < stop
    requires evicted < stop ==> !WithinLimits(seal, limit, Without(was, evicted, r))
    requires !WithinLimits(seal, limit, Without(was, stop, r)) && WithinLimits(seal, limit, Without(was, evicted, r))
    ensures stop < evicted
  {
  }

  lemma UnsealedBefore(seal: Sealer, limit: nat, was: Records, r: Record, stop: set<TaskId>, evicted: set<TaskId>)
    requires Prefix(was, r.launch.task, stop) && NoneShorter(seal, limit, was, r, stop)
    requires |Without(was, stop, r)| <= MAX_RECORDS && seal(Without(was, stop, r)).None?
    requires Shortest(seal, limit, was, r, evicted)
    ensures !ShorterSeal(seal, was, r, evicted)
  {
    PrefixesNest(was, r.launch.task, stop, evicted);
    FitsLater(seal, limit, was, r, stop, evicted);
  }

  /** Where no prefix makes room there is nothing to write either. */
  lemma FullDecides(seal: Sealer, limit: nat, was: Records, r: Record, diskOk: bool)
    requires ValidRecord(r.launch.task, r) && NoneSuffices(seal, limit, was, r)
    ensures Explained(Some(Full), seal, limit, was, r, diskOk)
  {
  }

  lemma CountFits(seal: Sealer, limit: nat, was: Records, r: Record)
    requires r.launch.task in was || |was| < MAX_RECORDS
    requires |was| <= MAX_RECORDS
    ensures was[r.launch.task := r] == Without(was, {}, r) && |Without(was, {}, r)| <= MAX_RECORDS
    ensures Evicted(was, r.launch.task, map[]) && NoneShorter(seal, limit, was, r, {}) && ShorterSeal(seal, was, r, {})
  {
    assert was - {} == was;
    assert was[r.launch.task := r].Keys == was.Keys + {r.launch.task};
  }

  lemma InsertGrows(was: Records, r: Record)
    requires r.launch.task !in was
    ensures |Without(was, {}, r)| == |was| + 1
  {
    assert was - {} == was;
    assert was[r.launch.task := r].Keys == was.Keys + {r.launch.task};
  }

  lemma CountFull(seal: Sealer, limit: nat, was: Records, r: Record)
    requires r.launch.task !in was && |was| >= MAX_RECORDS
    requires !exists id :: Evictable(was, r.launch.task, id)
    ensures NoneSuffices(seal, limit, was, r)
  {
    InsertGrows(was, r);
    assert forall evicted :: Prefix(was, r.launch.task, evicted) ==> evicted == {};
  }

  lemma CountShrunk(seal: Sealer, limit: nat, was: Records, r: Record, gone: TaskId)
    requires r.launch.task !in was && |was| == MAX_RECORDS && FirstEvictable(was, r.launch.task, gone)
    ensures Evicted(was, r.launch.task, map[gone := was[gone]]) && NoneShorter(seal, limit, was, r, {gone})
    ensures ShorterSeal(seal, was, r, {gone})
    ensures (was - {gone})[r.launch.task := r] == Without(was, {gone}, r) && |Without(was, {gone}, r)| <= MAX_RECORDS
  {
    NextPrefix(was, r.launch.task, {}, gone);
    assert {} + {gone} == {gone} && map[gone := was[gone]].Keys == {gone};
    forall fewer: set<TaskId> | fewer < {gone} && Prefix(was, r.launch.task, fewer)
      ensures !WithinLimits(seal, limit, Without(was, fewer, r)) && |Without(was, fewer, r)| > MAX_RECORDS
    {
      assert fewer == {};
      InsertGrows(was, r);
    }
    assert Without(was, {gone}, r).Keys == was.Keys - {gone} + {r.launch.task};
  }

  lemma ShrunkMap(was: Records, r: Record, before: set<TaskId>, gone: TaskId)
    requires gone in was && gone != r.launch.task && gone !in before
    ensures Without(was, before, r) - {gone} == Without(was, before + {gone}, r)
    ensures |Without(was, before, r) - {gone}| == |Without(was, before, r)| - 1
    ensures Without(was, before, r)[gone] == was[gone]
  {
    var held := Without(was, before, r);
    assert (held - {gone}).Keys == held.Keys - {gone};
  }

  lemma NextShorter(seal: Sealer, limit: nat, was: Records, r: Record, before: set<TaskId>, gone: TaskId)
    requires Prefix(was, r.launch.task, before) && NoneShorter(seal, limit, was, r, before)
    requires !WithinLimits(seal, limit, Without(was, before, r))
    requires gone !in before && Evictable(was, r.launch.task, gone)
    requires forall other :: Evictable(was, r.launch.task, other) && other !in before ==> gone <= other
    requires ShorterSeal(seal, was, r, before) && seal(Without(was, before, r)).Some?
    ensures Prefix(was, r.launch.task, before + {gone}) && NoneShorter(seal, limit, was, r, before + {gone})
    ensures ShorterSeal(seal, was, r, before + {gone})
  {
    NextPrefix(was, r.launch.task, before, gone);
    forall fewer | Prefix(was, r.launch.task, fewer) && fewer < before + {gone}
      ensures !WithinLimits(seal, limit, Without(was, fewer, r))
      ensures |Without(was, fewer, r)| <= MAX_RECORDS ==> seal(Without(was, fewer, r)).Some?
    {
      assert fewer < before || fewer == before;
    }
  }

  /** The tombstone the map calls first is the next one in the order of the map it came from. */
  lemma NextInOrder(was: Records, r: Record, before: set<TaskId>, gone: TaskId)
    requires FirstEvictable(Without(was, before, r), r.launch.task, gone)
    ensures gone !in before && Evictable(was, r.launch.task, gone) && Without(was, before, r)[gone] == was[gone]
    ensures forall other :: Evictable(was, r.launch.task, other) && other !in before ==> gone <= other
  {
    forall other | Evictable(was, r.launch.task, other) && other !in before ensures gone <= other {
      assert Evictable(Without(was, before, r), r.launch.task, other);
    }
  }

  lemma EvictedMore(was: Records, except: TaskId, before: Records, gone: TaskId)
    requires Evicted(was, except, before) && gone in was && Prefix(was, except, before.Keys + {gone})
    ensures before[gone := was[gone]].Keys == before.Keys + {gone}
    ensures Evicted(was, except, before[gone := was[gone]])
  {
    assert before[gone := was[gone]].Keys == before.Keys + {gone};
  }

  lemma Shrunk(seal: Sealer, limit: nat, was: Records, r: Record, before: Records, gone: TaskId)
    requires Evicted(was, r.launch.task, before) && NoneShorter(seal, limit, was, r, before.Keys)
    requires !WithinLimits(seal, limit, Without(was, before.Keys, r))
    requires FirstEvictable(Without(was, before.Keys, r), r.launch.task, gone)
    requires ShorterSeal(seal, was, r, before.Keys) && seal(Without(was, before.Keys, r)).Some?
    ensures var held := Without(was, before.Keys, r); var after := before[gone := held[gone]];
      && Evicted(was, r.launch.task, after) && NoneShorter(seal, limit, was, r, after.Keys)
      && ShorterSeal(seal, was, r, after.Keys)
      && held - {gone} == Without(was, after.Keys, r) && |held - {gone}| == |held| - 1
  {
    NextInOrder(was, r, before.Keys, gone);
    ShrunkMap(was, r, before.Keys, gone);
    NextShorter(seal, limit, was, r, before.Keys, gone);
    EvictedMore(was, r.launch.task, before, gone);
  }

  lemma NothingLeft(seal: Sealer, limit: nat, was: Records, r: Record, before: set<TaskId>)
    requires Prefix(was, r.launch.task, before) && NoneShorter(seal, limit, was, r, before)
    requires !WithinLimits(seal, limit, Without(was, before, r))
    requires !exists id :: Evictable(Without(was, before, r), r.launch.task, id)
    ensures NoneSuffices(seal, limit, was, r)
  {
    forall evicted | Prefix(was, r.launch.task, evicted) ensures evicted == before || evicted < before {
      assert forall id :: id in evicted && id !in before ==> Evictable(Without(was, before, r), r.launch.task, id);
      SameOrSmaller(evicted, before);
    }
  }

  lemma StoredLoads(was: Records, evicted: set<TaskId>, r: Record)
    requires Loadable(was) && ValidRecord(r.launch.task, r) && |Without(was, evicted, r)| <= MAX_RECORDS
    ensures Loadable(Without(was, evicted, r))
  {
  }

  lemma RestoreUndoes(was: Records, r: Record, previous: Option<Record>, evicted: Records)
    requires forall k :: k in evicted ==> k in was && k != r.launch.task && evicted[k] == was[k]
    requires previous == Previous(was, r.launch.task)
    ensures var kept := Without(was, evicted.Keys, r) - {r.launch.task};
      (if previous.Some? then kept[r.launch.task := previous.value] else kept) + evicted == was
  {
  }

  method SortedIds(ids: set<TaskId>) returns (out: seq<TaskId>)
    ensures forall id :: id in out <==> id in ids
    ensures forall i, j :: 0 <= i < j < |out| ==> out[i] < out[j]
  {
    out := [];
    var rest := ids;
    while rest != {}
      invariant forall id :: id in ids <==> id in out || id in rest
      invariant forall i, j :: 0 <= i < j < |out| ==> out[i] < out[j]
      invariant forall i, id :: 0 <= i < |out| && id in rest ==> out[i] < id
      decreases rest
    {
      var least :| least in rest && forall id :: id in rest ==> least <= id by { var _ := Least(rest); }
      out := out + [least];
      rest := rest - {least};
    }
  }

  lemma {:induction false} Least(ids: set<TaskId>) returns (least: TaskId)
    requires ids != {}
    ensures least in ids && forall id :: id in ids ==> least <= id
    decreases ids
  {
    least :| least in ids;
    if ids != {least} {
      var other := Least(ids - {least});
      assert ids == (ids - {least}) + {least};
      if other < least { least := other; }
    }
  }
}
