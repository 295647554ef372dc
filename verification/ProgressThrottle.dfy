/** The progress throttle: what any sequence of samples stores, and how few copies it mails. */
module ProgressThrottle {
  import opened Wire
  import opened Ledger
  import opened LedgerRuns
  import opened LedgerInvariant

  datatype Sample = Sample(now: int, turns: int, tool: string)

  /** A copy sent to the requester: when, and at which turn. */
  datatype Copy = Copy(at: int, turns: int)

  const NO_PROGRESS := Progress(0, "", 0, 0)

  /** The stored progress and the copies mailed, after all samples in order. */
  function Folded(samples: seq<Sample>): (Progress, seq<Copy>) {
    if samples == [] then (NO_PROGRESS, [])
    else
      var (prev, copies) := Folded(samples[..|samples| - 1]);
      var s := samples[|samples| - 1];
      var (next, due) := NextProgress(prev, s.turns, s.tool, s.now);
      (next, if due then copies + [Copy(s.now, next.turns)] else copies)
  }

  /** The clock is past the epoch and never runs back. */
  predicate Timely(samples: seq<Sample>) {
    && (forall i :: 0 <= i < |samples| ==> samples[i].now > 0)
    && (forall i, j :: 0 <= i < j < |samples| ==> samples[i].now <= samples[j].now)
  }

  function Clamped(turns: int): int { Min(Max(turns, 0), MAX_TURNS) }

  /** The throttle's memory is the last copy, or the first sample when none was sent. */
  predicate Remembers(samples: seq<Sample>, p: Progress, copies: seq<Copy>) {
    && 0 <= p.mailedTurns <= p.turns <= MAX_TURNS
    && (samples == [] ==> p == NO_PROGRESS && copies == [])
    && (samples != [] ==> 0 < p.mailedAt <= samples[|samples| - 1].now)
    && (copies != [] ==> copies[|copies| - 1] == Copy(p.mailedAt, p.mailedTurns))
    && (samples != [] && copies == [] ==> p.mailedAt == samples[0].now && p.mailedTurns == Clamped(samples[0].turns))
  }

  /** Each copy is at least an interval and at least one turn past the one before, and so past the first sample. */
  predicate Throttled(samples: seq<Sample>, copies: seq<Copy>) {
    && (copies != [] ==> samples != [])
    && (forall k :: 0 <= k < |copies| - 1 ==>
          copies[k + 1].at - copies[k].at >= MAIL_INTERVAL && copies[k + 1].turns > copies[k].turns)
    && (copies != [] ==> copies[0].at - samples[0].now >= MAIL_INTERVAL && copies[0].turns > Clamped(samples[0].turns))
  }

  lemma {:induction false} ThrottleHolds(samples: seq<Sample>)
    requires Timely(samples)
    ensures Remembers(samples, Folded(samples).0, Folded(samples).1) && Throttled(samples, Folded(samples).1)
  {
    if samples != [] {
      var before, s := samples[..|samples| - 1], samples[|samples| - 1];
      ThrottleHolds(before);
      assert before != [] ==> before[0] == samples[0] && before[|before| - 1].now <= s.now;
    }
  }

  /** The stored turn count never falls and never exceeds its bound. */
  lemma {:induction false} TurnsOnlyClimb(samples: seq<Sample>, i: nat)
    requires i <= |samples|
    ensures 0 <= Folded(samples[..i]).0.turns <= Folded(samples).0.turns <= MAX_TURNS
    decreases |samples|
  {
    if i == |samples| {
      assert samples[..i] == samples;
      if samples != [] { TurnsOnlyClimb(samples[..i - 1], i - 1); }
    } else {
      var before := samples[..|samples| - 1];
      TurnsOnlyClimb(before, i);
      assert before[..i] == samples[..i];
    }
  }

  /** So `k` copies take at least `120k` seconds and `k` turns beyond the first sample. */
  lemma {:induction false} CopiesAreEarned(samples: seq<Sample>, k: nat)
    requires Timely(samples) && k < |Folded(samples).1|
    ensures var copy := Folded(samples).1[k];
      && samples != []
      && copy.at - samples[0].now >= (k + 1) * MAIL_INTERVAL
      && copy.turns - Clamped(samples[0].turns) >= k + 1
      && copy.at <= samples[|samples| - 1].now && copy.turns <= Folded(samples).0.turns
  {
    ThrottleHolds(samples);
    if k > 0 { CopiesAreEarned(samples, k - 1); }
    var copies := Folded(samples).1;
    CopiesBelowLast(samples, copies, Folded(samples).0, k);
  }

  lemma {:induction false} CopiesBelowLast(samples: seq<Sample>, copies: seq<Copy>, p: Progress, k: nat)
    requires Throttled(samples, copies) && Remembers(samples, p, copies) && k < |copies|
    ensures copies[k].at <= p.mailedAt && copies[k].turns <= p.mailedTurns
    decreases |copies| - k
  {
    if k < |copies| - 1 { CopiesBelowLast(samples, copies, p, k + 1); }
  }

  /** The stored turns are the highest any sample reached, within the bound. */
  lemma {:induction false} TurnsAreHighest(samples: seq<Sample>)
    ensures forall i :: 0 <= i < |samples| ==>
      samples[i].turns <= Folded(samples).0.turns || Folded(samples).0.turns == 100000
    ensures Folded(samples).0.turns == 0 || Folded(samples).0.turns == 100000 ||
      exists i :: 0 <= i < |samples| && samples[i].turns == Folded(samples).0.turns
  {
    if samples != [] {
      var before := samples[..|samples| - 1];
      TurnsAreHighest(before);
      TurnsOnlyClimb(before, |before|);
      assert forall i :: 0 <= i < |before| ==> before[i] == samples[i];
      assert samples[|samples| - 1].turns <= Folded(samples).0.turns || Folded(samples).0.turns == 100000;
    }
  }

  /**
   * A sample is mailed exactly when it comes two minutes and at least a turn after the last copy, or after
   * the first sample if there was none; the first sample never is. The copy says the highest turn so far.
   */
  lemma MailedExactly(samples: seq<Sample>, s: Sample)
    requires Timely(samples + [s])
    ensures var copies, copies', turns := Folded(samples).1, Folded(samples + [s]).1, Folded(samples + [s]).0.turns;
      var mailed := samples != [] &&
        if copies != [] then s.now - copies[|copies| - 1].at >= 120 && turns > copies[|copies| - 1].turns
        else s.now - samples[0].now >= 120 && turns > Clamped(samples[0].turns);
      copies' == if mailed then copies + [Copy(s.now, turns)] else copies
  {
    FoldedAppend(samples, s);
    TimelyFront(samples, s);
    ThrottleHolds(samples);
  }

  lemma FoldedAppend(samples: seq<Sample>, s: Sample)
    ensures var (prev, copies) := Folded(samples); var (next, due) := NextProgress(prev, s.turns, s.tool, s.now);
      Folded(samples + [s]) == (next, if due then copies + [Copy(s.now, next.turns)] else copies)
  {
    assert (samples + [s])[..|samples|] == samples;
  }

  lemma TimelyFront(samples: seq<Sample>, s: Sample)
    requires Timely(samples + [s])
    ensures Timely(samples) && s.now > 0 && (samples != [] ==> 0 < samples[|samples| - 1].now <= s.now)
  {
    assert forall i :: 0 <= i < |samples| ==> (samples + [s])[i] == samples[i];
    assert (samples + [s])[|samples|] == s;
  }

  /** A task stuck on its turn mails nothing, however long it runs. */
  lemma {:induction false} StuckIsSilent(samples: seq<Sample>)
    requires Timely(samples) && samples != []
    requires forall i :: 0 <= i < |samples| ==> samples[i].turns <= Clamped(samples[0].turns)
    ensures Folded(samples).1 == [] && Folded(samples).0.turns == Clamped(samples[0].turns)
  {
    var before := samples[..|samples| - 1];
    if before != [] {
      assert before[0] == samples[0];
      StuckIsSilent(before);
      ThrottleHolds(before);
    }
  }

  /** The last clean tool name survives samples that name none. */
  lemma {:induction false} LastToolStays(samples: seq<Sample>, i: nat)
    requires i < |samples| && CleanTool(samples[i].tool) != ""
    requires forall j :: i < j < |samples| ==> CleanTool(samples[j].tool) == ""
    ensures Folded(samples).0.tool == CleanTool(samples[i].tool)
  {
    var before := samples[..|samples| - 1];
    if i < |samples| - 1 {
      LastToolStays(before, i);
      CleanIsClean(samples[i].tool);
    }
  }

  /** A short name of tool characters is kept, a longer one is cut, and anything else is no name. */
  lemma CleanKeepsNames(name: string)
    ensures var cut := if |name| <= 64 then name else name[..64];
      CleanTool(name) == if NamesATool(cut) then cut else ""
  {
    var cut := if |name| <= 64 then name else name[..64];
    assert forall i :: 0 <= i < |cut| ==> cut[i] in cut;
    assert NamesATool(cut) <==> forall c :: c in cut ==> ToolChar(c);
  }

  predicate NamesATool(s: string) {
    forall i :: 0 <= i < |s| ==>
      'a' <= s[i] <= 'z' || 'A' <= s[i] <= 'Z' || '0' <= s[i] <= '9' || s[i] in {'_', '-', '.', ':'}
  }

  /** A cleaned name is a name: short, of tool characters only, and cleaning it again changes nothing. */
  lemma CleanIsClean(name: string)
    ensures var c := CleanTool(name); CleanTool(c) == c && |c| <= MAX_TOOL && forall k :: k in c ==> ToolChar(k)
  {
  }

  // ---------------------------------------------------------------- in the ledger

  /** How one step may change a task's progress: not at all, by one sample, or by the task being new. */
  ghost predicate Sampling(s: Store, s': Store, now: int, id: TaskId, turns: int, tool: string) {
    id in s'.tasks ==>
      var p' := s'.tasks[id].progress;
      if id !in s.tasks then p' == NO_PROGRESS
      else p' == s.tasks[id].progress || p' == NextProgress(s.tasks[id].progress, turns, tool, now).0
  }

  /** Every transaction leaves a task's progress alone, or folds in one sample at its own time. */
  lemma LedgerOnlySamples(d: Daemon, now: int, op: Op, d': Daemon, id: TaskId) returns (turns: int, tool: string)
    requires Takes(d, now, op, d')
    ensures Sampling(d.db, d'.db, now, id, turns, tool)
  {
    turns, tool := 0, "";
    match op
    case Tasks(t) =>
      var w := TaskOpWrites(d.db, now, t);
      if w.Write? { turns, tool := w.turns, w.tool; }
    case House(h) => if h.SweepOne? { var w := SweepWrites(d.db, now, d.sweeper.todo[0]); }
    case _ =>
  }

  lemma {:induction false} LedgerTurnsBounded(run: seq<Daemon>, i: nat, id: TaskId)
    requires IsRun(run) && i < |run| && id in run[i].db.tasks
    ensures 0 <= run[i].db.tasks[id].progress.turns <= MAX_TURNS
  {
    if i > 0 {
      assert StepAt(run, i - 1);
      var now, op :| Takes(run[i - 1], now, op, run[i]);
      var turns, tool := LedgerOnlySamples(run[i - 1], now, op, run[i], id);
      if id in run[i - 1].db.tasks { LedgerTurnsBounded(run, i - 1, id); }
    }
  }

  predicate InLedger(run: seq<Daemon>, id: TaskId, k: nat) {
    k < |run| && id in run[k].db.tasks
  }

  lemma StepTurnsClimb(run: seq<Daemon>, k: nat, id: TaskId)
    requires IsRun(run) && InLedger(run, id, k) && InLedger(run, id, k + 1)
    ensures run[k].db.tasks[id].progress.turns <= run[k + 1].db.tasks[id].progress.turns
  {
    LedgerTurnsBounded(run, k, id);
    assert StepAt(run, k);
    var now, op :| Takes(run[k], now, op, run[k + 1]);
    var turns, tool := LedgerOnlySamples(run[k], now, op, run[k + 1], id);
  }

  /** In every run, while a task is in the ledger its turn count only climbs. */
  lemma {:induction false} LedgerTurnsClimb(run: seq<Daemon>, i: nat, j: nat, id: TaskId)
    requires IsRun(run) && i <= j < |run|
    requires forall k :: i <= k <= j ==> InLedger(run, id, k)
    ensures InLedger(run, id, i) && InLedger(run, id, j)
    ensures run[i].db.tasks[id].progress.turns <= run[j].db.tasks[id].progress.turns
  {
    assert InLedger(run, id, i) && InLedger(run, id, j);
    if i < j {
      LedgerTurnsClimb(run, i, j - 1, id);
      StepTurnsClimb(run, j - 1, id);
    }
  }

  // ---------------------------------------------------------------- in the requester's inbox

  /** The progress copies of one task in the log, in the order they were written. */
  function Copies(log: seq<Message>, id: TaskId): seq<Copy> {
    if log == [] then []
    else
      var last := log[|log| - 1];
      var rest := Copies(log[..|log| - 1], id);
      if last.task == Some(id) && last.body.ProgressBody? then rest + [Copy(last.createdAt, last.body.turns)] else rest
  }

  lemma CopiesAppend(log: seq<Message>, m: Message, id: TaskId)
    ensures Copies(log + [m], id) == Copies(log, id) +
      if m.task == Some(id) && m.body.ProgressBody? then [Copy(m.createdAt, m.body.turns)] else []
  {
    assert (log + [m])[..|log|] == log;
  }

  predicate Spaced(copies: seq<Copy>) {
    forall k :: 0 <= k < |copies| - 1 ==>
      copies[k + 1].at - copies[k].at >= MAIL_INTERVAL && copies[k + 1].turns > copies[k].turns
  }

  /**
   * A task's stored progress remembers its last copy, and the first one came an interval and a turn after its start.
   */
  predicate Tallies(t: Task, copies: seq<Copy>, clock: int) {
    var p := t.progress;
    && 0 <= p.mailedTurns <= p.turns <= MAX_TURNS && 0 < t.createdAt
    && (p.mailedAt == 0 ==> copies == []) && (p.mailedAt != 0 ==> t.createdAt <= p.mailedAt <= clock)
    && (copies != [] ==>
          && copies[|copies| - 1] == Copy(p.mailedAt, p.mailedTurns)
          && copies[0].at - t.createdAt >= MAIL_INTERVAL && copies[0].turns >= 1)
  }

  ghost predicate CopiesTally(s: Store) {
    && (forall id: TaskId :: Spaced(Copies(s.mail.log, id)))
    && (forall id :: id in s.tasks ==> Tallies(s.tasks[id], Copies(s.mail.log, id), s.clock))
  }

  lemma {:induction false} NoCopiesYet(log: seq<Message>, id: TaskId)
    requires forall m :: 0 <= m < |log| ==> log[m].task != Some(id)
    ensures Copies(log, id) == []
  {
    if log != [] { NoCopiesYet(log[..|log| - 1], id); }
  }

  /** What one write does to one task's copies. */
  lemma WriteCopies(s: Store, now: int, w: Write, id: TaskId)
    requires w.Write? && WriteSound(s, now, w)
    ensures var s' := Wrote(s, now, w);
      Copies(s'.mail.log, id) ==
        if id == w.id && w.message.Some? && w.message.value.body.ProgressBody?
        then Copies(s.mail.log, id) + [Copy(now, w.t.progress.turns)] else Copies(s.mail.log, id)
  {
    if w.message.Some? { CopiesAppend(s.mail.log, w.message.value, id); }
  }

  lemma WrittenTaskTallies(s: Store, now: int, w: Write)
    requires w.Write? && WriteSound(s, now, w) && CopiesTally(s) && s.clock <= now && 0 < s.clock
    requires w.id in s.tasks ==> s.tasks[w.id].createdAt <= s.clock
    ensures var copies := Copies(Wrote(s, now, w).mail.log, w.id); Tallies(w.t, copies, now) && Spaced(copies)
  {
    WriteCopies(s, now, w, w.id);
    assert Spaced(Copies(s.mail.log, w.id));
    if w.id in s.tasks {
      assert Tallies(s.tasks[w.id], Copies(s.mail.log, w.id), s.clock);
    } else {
      NoCopiesYet(s.mail.log, w.id);
    }
  }

  /** Tallies of all tasks, when all but one have theirs as before. */
  lemma OthersTally(s: Store, s': Store, own: TaskId)
    requires CopiesTally(s) && s.clock <= s'.clock
    requires forall id: TaskId :: id != own ==> Copies(s'.mail.log, id) == Copies(s.mail.log, id)
    requires forall id :: id in s'.tasks && id != own ==> id in s.tasks && s'.tasks[id] == s.tasks[id]
    requires Spaced(Copies(s'.mail.log, own))
    requires own in s'.tasks ==> Tallies(s'.tasks[own], Copies(s'.mail.log, own), s'.clock)
    ensures CopiesTally(s')
  {
    forall id: TaskId ensures Spaced(Copies(s'.mail.log, id)) { assert Spaced(Copies(s.mail.log, id)); }
    forall id | id in s'.tasks ensures Tallies(s'.tasks[id], Copies(s'.mail.log, id), s'.clock) {
      if id != own { assert Tallies(s.tasks[id], Copies(s.mail.log, id), s.clock); }
    }
  }

  lemma WriteTallies(s: Store, now: int, w: Write)
    requires WriteSound(s, now, w) && CopiesTally(s) && s.clock <= now && 0 < s.clock
    requires w.Write? && w.id in s.tasks ==> s.tasks[w.id].createdAt <= s.clock
    ensures CopiesTally(Wrote(s, now, w).(clock := now))
  {
    if w.Write? {
      var s' := Wrote(s, now, w).(clock := now);
      WrittenTaskTallies(s, now, w);
      forall id: TaskId | id != w.id ensures Copies(s'.mail.log, id) == Copies(s.mail.log, id) {
        WriteCopies(s, now, w, id);
      }
      OthersTally(s, s', w.id);
    } else {
      QuietTallies(s, Wrote(s, now, w).(clock := now));
    }
  }

  lemma TaskOpTallies(s: Store, now: int, op: TaskOp)
    requires TaskEnabled(s, now, op) && CopiesTally(s) && s.clock <= now && 0 < s.clock && RowsSound(s)
    ensures CopiesTally(TasksAfter(s, now, op).(clock := now))
  {
    var w := TaskOpWrites(s, now, op);
    if w.Write? && w.id in s.tasks { assert RowSound(s, s.tasks[w.id]); }
    WriteTallies(s, now, w);
  }

  lemma MailTallies(s: Store, now: int, op: MailOp)
    requires CopiesTally(s) && s.clock <= now
    ensures CopiesTally(s.(mail := MailAfter(s, now, op), clock := now))
  {
    var log, log' := s.mail.log, MailAfter(s, now, op).log;
    forall id: TaskId ensures Copies(log', id) == Copies(log, id) {
      if log' != log { CopiesAppend(log, log'[|log|], id); }
    }
  }

  /** Transactions that write neither mail nor tasks, beyond purging some. */
  lemma QuietTallies(s: Store, s': Store)
    requires CopiesTally(s) && s'.mail.log == s.mail.log && s.clock <= s'.clock
    requires forall id :: id in s'.tasks ==> id in s.tasks && s'.tasks[id] == s.tasks[id]
    ensures CopiesTally(s')
  {
  }

  lemma HouseTallies(d: Daemon, now: int, op: HouseOp)
    requires RowsSound(d.db) && 0 < d.db.clock <= now && HouseEnabled(d, now, op) && CopiesTally(d.db)
    ensures CopiesTally(At(HouseAfter(d, now, op), now).db)
  {
    if op.SweepOne? { SweepTallies(d.db, now, d.sweeper.todo[0]); }
    else { QuietTallies(d.db, At(HouseAfter(d, now, op), now).db); }
  }

  lemma StepTallies(d: Daemon, now: int, op: Op, d': Daemon)
    requires RowsSound(d.db) && 0 < d.db.clock && Takes(d, now, op, d') && CopiesTally(d.db)
    ensures CopiesTally(d'.db)
  {
    match op
    case Tasks(t) => TaskOpTallies(d.db, now, t);
    case Mails(m) => MailTallies(d.db, now, m);
    case Rows(_) => QuietTallies(d.db, d'.db);
    case House(h) => HouseTallies(d, now, h);
  }

  lemma SweepTallies(s: Store, now: int, id: TaskId)
    requires CopiesTally(s) && s.clock <= now && 0 < s.clock && RowsSound(s)
    ensures CopiesTally(Expire(s, now, id).0.(clock := now))
  {
    var w := SweepWrites(s, now, id);
    if w.Write? && w.id in s.tasks { assert RowSound(s, s.tasks[w.id]); }
    WriteTallies(s, now, w);
  }

  lemma {:induction false} RunTallies(run: seq<Daemon>, i: nat)
    requires IsRun(run) && i < |run|
    ensures CopiesTally(run[i].db)
  {
    if i == 0 {
      NoTallies(run[0].db);
    } else {
      RunTallies(run, i - 1);
      RunStepTallies(run, i - 1);
    }
  }

  lemma NoTallies(s: Store)
    requires s.mail.log == [] && s.tasks == map[]
    ensures CopiesTally(s)
  {
  }

  lemma RunStepTallies(run: seq<Daemon>, i: nat)
    requires IsRun(run) && i + 1 < |run| && CopiesTally(run[i].db)
    ensures CopiesTally(run[i + 1].db)
  {
    RunKeepsInv(run, i);
    assert StepAt(run, i);
    NextTallies(run[i], run[i + 1]);
  }

  lemma NextTallies(d: Daemon, d': Daemon)
    requires Inv(d) && Next(d, d') && CopiesTally(d.db)
    ensures CopiesTally(d'.db)
  {
    var now, op :| Takes(d, now, op, d');
    StepTallies(d, now, op, d');
  }

  lemma {:induction false} SpacedAdds(copies: seq<Copy>, start: int, k: nat)
    requires Spaced(copies) && k < |copies| && copies[0].at - start >= MAIL_INTERVAL && copies[0].turns >= 1
    ensures copies[k].at - start >= (k + 1) * MAIL_INTERVAL && copies[k].turns >= k + 1
  {
    if k > 0 { SpacedAdds(copies, start, k - 1); }
  }

  /**
   * In every reachable state of the ledger, the k-th progress copy in a requester's mail came at least
   * 120k seconds after its task was assigned and reports at least k turns; and no two copies of any task,
   * purged or not, are closer than an interval and a turn.
   */
  lemma LedgerCopiesAreEarned(run: seq<Daemon>, i: nat, id: TaskId, k: nat)
    requires IsRun(run) && i < |run| && k < |Copies(run[i].db.mail.log, id)|
    ensures Spaced(Copies(run[i].db.mail.log, id))
    ensures id in run[i].db.tasks ==>
      var copy, t := Copies(run[i].db.mail.log, id)[k], run[i].db.tasks[id];
      && copy.at - t.createdAt >= (k + 1) * MAIL_INTERVAL && copy.turns >= k + 1
      && copy.turns <= MAX_TURNS
  {
    RunTallies(run, i);
    var copies := Copies(run[i].db.mail.log, id);
    assert Spaced(copies);
    if id in run[i].db.tasks {
      assert Tallies(run[i].db.tasks[id], copies, run[i].db.clock);
      SpacedAdds(copies, run[i].db.tasks[id].createdAt, k);
      SpacedBounded(copies, k);
    }
  }

  lemma {:induction false} SpacedBounded(copies: seq<Copy>, k: nat)
    requires Spaced(copies) && k < |copies|
    ensures copies[k].turns <= copies[|copies| - 1].turns
    decreases |copies| - k
  {
    if k < |copies| - 1 { SpacedBounded(copies, k + 1); }
  }
}
