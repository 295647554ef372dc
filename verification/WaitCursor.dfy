/** The durable wait cursor: concurrent waiters, a peek made of two queries, and crashes at every point. */
module WaitCursor {
  import opened Wire

  /** One agent's inbox in one workspace: message ids start at one and only grow. */
  datatype Box = Box(top: nat, delivered: set<nat>, read: set<nat>)

  /**
   * A waiter. `Arming` has found no live cursor; `Counted` has the high-water mark of its arming
   * peek, or zero when the daemon could not be reached; `Between` is inside a poll, after its first query.
   */
  datatype Waiter =
    | Arming
    | Counted(high: nat)
    | Polling(after: nat)
    | Between(after: nat, high: nat)
    | Advancing(after: nat, high: nat)
    | Woken(after: nat)

  /** `file` is the saved cursor, if it is there and not too old; the rest is history. */
  datatype State = State(box: Box, file: Option<nat>, waiters: map<nat, Waiter>, baselines: set<nat>, saved: set<nat>)

  predicate Init(s: State) {
    s == State(Box(0, {}, {}), None, map[], {}, {})
  }

  predicate Unread(b: Box, id: nat) { id in b.delivered && id !in b.read }

  /** MAX(id) over the delivered rows, zero when there is none. */
  ghost predicate IsHighWater(b: Box, high: nat) {
    && (forall id :: id in b.delivered ==> id <= high)
    && (high == 0 || high in b.delivered)
  }

  // ---------------------------------------------------------------- the inbox moves

  /** A message is delivered here; ids in between went elsewhere. */
  predicate Delivers(b: Box, b': Box) {
    b'.top > b.top && b' == Box(b'.top, b.delivered + {b'.top}, b.read)
  }

  predicate Reads(b: Box, ids: set<nat>, b': Box) {
    ids <= b.delivered && b' == b.(read := b.read + ids)
  }

  predicate Purges(b: Box, ids: set<nat>, b': Box) {
    b' == b.(delivered := b.delivered - ids)
  }

  // ---------------------------------------------------------------- a waiter moves

  function With(s: State, k: nat, w: Waiter): State { s.(waiters := s.waiters[k := w]) }

  /** A waiter starts by resuming the saved cursor; without one, it arms. */
  predicate Starts(s: State, k: nat, s': State) {
    k !in s.waiters && s' == With(s, k, if s.file.Some? then Polling(s.file.value) else Arming)
  }

  /** The arming peek: only its high-water mark is used, and a transport failure leaves it at zero. */
  ghost predicate Counts(s: State, k: nat, high: nat, s': State) {
    && k in s.waiters && s.waiters[k].Arming?
    && (high == 0 || IsHighWater(s.box, high))
    && s' == With(s, k, Counted(high))
  }

  predicate SavesBaseline(s: State, k: nat, s': State) {
    && k in s.waiters && s.waiters[k].Counted?
    && var high := s.waiters[k].high;
    s' == With(s, k, Polling(high)).(file := Some(high), baselines := s.baselines + {high}, saved := s.saved + {high})
  }

  ghost predicate Asks(s: State, k: nat, high: nat, s': State) {
    && k in s.waiters && s.waiters[k].Polling? && IsHighWater(s.box, high)
    && s' == With(s, k, Between(s.waiters[k].after, high))
  }

  ghost predicate SeesMail(b: Box, after: nat) {
    exists id :: id > after && Unread(b, id)
  }

  /** The unread query, later than the high-water one: a wake, an advance, or another round. */
  ghost predicate Decides(s: State, k: nat, s': State) {
    && k in s.waiters && s.waiters[k].Between?
    && var after, high := s.waiters[k].after, s.waiters[k].high;
    s' == With(s, k,
      if SeesMail(s.box, after) then Woken(after)
      else if high > after then Advancing(after, high)
      else Polling(after))
  }

  predicate SavesAdvance(s: State, k: nat, s': State) {
    && k in s.waiters && s.waiters[k].Advancing?
    && var high := s.waiters[k].high;
    s' == With(s, k, Polling(high)).(file := Some(high), saved := s.saved + {high})
  }

  /** A peek whose answer never came. */
  predicate Misses(s: State, k: nat, s': State) {
    k in s.waiters && s.waiters[k].Between? && s' == With(s, k, Polling(s.waiters[k].after))
  }

  /** Timeouts, wakes, refusals and crashes all end a waiter. */
  predicate Leaves(s: State, k: nat, s': State) {
    k in s.waiters && s' == s.(waiters := s.waiters - {k})
  }

  ghost predicate WaiterStep(s: State, k: nat, s': State) {
    || Starts(s, k, s') || (exists high :: Counts(s, k, high, s')) || SavesBaseline(s, k, s')
    || (exists high :: Asks(s, k, high, s')) || Decides(s, k, s') || SavesAdvance(s, k, s')
    || Misses(s, k, s') || Leaves(s, k, s')
  }

  ghost predicate BoxMoves(b: Box, b': Box) {
    Delivers(b, b') || (exists ids :: Reads(b, ids, b')) || exists ids :: Purges(b, ids, b')
  }

  ghost predicate BoxStep(s: State, s': State) {
    s' == s.(box := s'.box) && BoxMoves(s.box, s'.box)
  }

  /** The saved cursor ages out after a day, or is lost. */
  predicate Ages(s: State, s': State) { s' == s.(file := None) }

  ghost predicate Next(s: State, s': State) {
    BoxStep(s, s') || Ages(s, s') || exists k :: WaiterStep(s, k, s')
  }

  ghost predicate StepAt(run: seq<State>, i: nat)
    requires i < |run| - 1
  {
    Next(run[i], run[i + 1])
  }

  ghost predicate IsRun(run: seq<State>) {
    && |run| > 0 && Init(run[0])
    && forall i :: 0 <= i < |run| - 1 ==> StepAt(run, i)
  }

  // ---------------------------------------------------------------- the invariant

  /** Later than every first arm. */
  predicate Recent(s: State, id: nat) {
    forall base :: base in s.baselines ==> id > base
  }

  /**
   * No unread delivery newer than every first arm lies at or below `cursor`, which is no later than the newest
   * message.
   */
  ghost predicate SafeAt(s: State, cursor: nat) {
    && cursor <= s.box.top
    && forall id: nat :: Recent(s, id) && Unread(s.box, id) ==> id > cursor
  }

  /** Cursors in memory are as safe as saved ones. */
  ghost predicate WaiterSafe(s: State, w: Waiter) {
    match w
    case Arming => true
    case Counted(high) => high <= s.box.top
    case Polling(after) => SafeAt(s, after)
    case Between(after, high) => SafeAt(s, after) && high <= s.box.top
    case Advancing(_, high) => SafeAt(s, high)
    case Woken(after) => SafeAt(s, after)
  }

  ghost predicate Inv(s: State) {
    && (forall id :: id in s.box.delivered ==> 0 < id <= s.box.top)
    && (forall c :: c in s.saved ==> SafeAt(s, c))
    && s.baselines <= s.saved && (s.file.Some? ==> s.file.value in s.saved)
    && (forall k :: k in s.waiters ==> WaiterSafe(s, s.waiters[k]))
  }

  // ---------------------------------------------------------------- every step keeps it

  /** When no recent unread delivery appears except beyond the newest message, every safe cursor stays safe. */
  ghost predicate Calms(s: State, s': State) {
    && s.box.top <= s'.box.top
    && forall id: nat :: Recent(s', id) && Unread(s'.box, id) ==> (Recent(s, id) && Unread(s.box, id)) || id > s.box.top
  }

  lemma WaitersStaySafe(s: State, s': State, w: Waiter)
    requires Calms(s, s') && WaiterSafe(s, w)
    ensures WaiterSafe(s', w)
  {
  }

  lemma BoxStepKeeps(s: State, s': State)
    requires Inv(s) && BoxStep(s, s')
    ensures Inv(s')
  {
    assert Calms(s, s');
    forall k | k in s.waiters ensures WaiterSafe(s', s.waiters[k]) { WaitersStaySafe(s, s', s.waiters[k]); }
  }

  /** A waiter's own next state is safe in the state it leads to. */
  lemma MoverIsSafe(s: State, k: nat, s': State)
    requires Inv(s) && WaiterStep(s, k, s') && k in s'.waiters
    ensures WaiterSafe(s', s'.waiters[k])
  {
    assert Calms(s, s');
  }

  lemma WaiterStepKeeps(s: State, k: nat, s': State)
    requires Inv(s) && WaiterStep(s, k, s')
    ensures Inv(s')
  {
    assert Calms(s, s');
    if k in s'.waiters { MoverIsSafe(s, k, s'); }
    forall j | j in s'.waiters && j != k ensures WaiterSafe(s', s'.waiters[j]) { WaitersStaySafe(s, s', s.waiters[j]); }
  }

  lemma {:induction false} RunKeeps(run: seq<State>, i: nat)
    requires IsRun(run) && i < |run|
    ensures Inv(run[i])
  {
    if i > 0 {
      RunKeeps(run, i - 1);
      assert StepAt(run, i - 1);
      var s, s' := run[i - 1], run[i];
      if BoxStep(s, s') { BoxStepKeeps(s, s'); }
      else if !Ages(s, s') {
        var k :| WaiterStep(s, k, s');
        WaiterStepKeeps(s, k, s');
      }
    }
  }

  // ---------------------------------------------------------------- what the cursor promises

  /**
   * In every interleaving, an unread delivery is at or below some cursor ever saved exactly when it is
   * at or below some first arm's high-water mark: advancing never passes unread mail.
   */
  lemma AdvancesNeverPassMail(run: seq<State>, i: nat, id: nat)
    requires IsRun(run) && i < |run| && Unread(run[i].box, id)
    ensures (exists c :: c in run[i].saved && id <= c) <==> (exists base :: base in run[i].baselines && id <= base)
  {
    RunKeeps(run, i);
    var s := run[i];
    if c :| c in s.saved && id <= c {
      assert SafeAt(s, c);
      assert !Recent(s, id);
    }
    if base :| base in s.baselines && id <= base {
      assert base in s.saved;
    }
  }

  /** So waiters that all resume one first arm lose nothing newer than it. */
  lemma OneArmLosesNothing(run: seq<State>, i: nat, base: nat, id: nat, c: nat)
    requires IsRun(run) && i < |run| && run[i].baselines == {base}
    requires Unread(run[i].box, id) && id > base && c in run[i].saved
    ensures id > c
  {
    AdvancesNeverPassMail(run, i, id);
  }

  /** A replacement that resumes the saved cursor is woken by any unread mail newer than every first arm. */
  lemma ResumedWaiterWakes(run: seq<State>, i: nat, k: nat, id: nat, s': State)
    requires IsRun(run) && i < |run| && Recent(run[i], id) && Unread(run[i].box, id)
    requires Decides(run[i], k, s')
    ensures s'.waiters[k] == Woken(run[i].waiters[k].after)
  {
    RunKeeps(run, i);
    assert WaiterSafe(run[i], run[i].waiters[k]);
    assert id > run[i].waiters[k].after;
  }

  const EMPTY := Box(0, {}, {})
  const ONE := Box(1, {1}, {})

  /** Two waiters arm first; a message comes between their counts, and each saves what it counted. */
  function TwoArms(i: nat): State {
    match i
    case 0 => State(EMPTY, None, map[], {}, {})
    case 1 => State(EMPTY, None, map[0 := Arming], {}, {})
    case 2 => State(EMPTY, None, map[0 := Arming, 1 := Arming], {}, {})
    case 3 => State(EMPTY, None, map[0 := Counted(0), 1 := Arming], {}, {})
    case 4 => State(ONE, None, map[0 := Counted(0), 1 := Arming], {}, {})
    case 5 => State(ONE, None, map[0 := Counted(0), 1 := Counted(1)], {}, {})
    case 6 => State(ONE, Some(0), map[0 := Polling(0), 1 := Counted(1)], {0}, {0})
    case _ => State(ONE, Some(1), map[0 := Polling(0), 1 := Polling(1)], {0, 1}, {0, 1})
  }

  lemma BothCount(i: nat)
    requires i < 5
    ensures Next(TwoArms(i), TwoArms(i + 1))
  {
    var s, s' := TwoArms(i), TwoArms(i + 1);
    match i
    case 0 => assert Starts(s, 0, s') && WaiterStep(s, 0, s');
    case 1 => assert Starts(s, 1, s') && WaiterStep(s, 1, s');
    case 2 => assert Counts(s, 0, 0, s') && WaiterStep(s, 0, s');
    case 3 => assert Delivers(s.box, s'.box) && BoxStep(s, s');
    case _ => assert Counts(s, 1, 1, s') && WaiterStep(s, 1, s');
  }

  lemma BothSave(i: nat)
    requires 5 <= i < 7
    ensures Next(TwoArms(i), TwoArms(i + 1))
  {
    var s, s' := TwoArms(i), TwoArms(i + 1);
    assert SavesBaseline(s, i - 5, s') && WaiterStep(s, i - 5, s');
  }

  lemma TwoArmsRun() returns (run: seq<State>)
    ensures IsRun(run) && |run| == 8 && run[7] == TwoArms(7)
  {
    run := seq(8, (i: nat) => TwoArms(i));
    forall i | 0 <= i < 7 ensures StepAt(run, i) {
      if i < 5 { BothCount(i); } else { BothSave(i); }
    }
  }

  /** Two first arms may disagree: mail newer than the first baseline ends up behind the second cursor. */
  lemma TwoArmsDisagree() returns (run: seq<State>)
    ensures IsRun(run) && var s := run[|run| - 1]; Unread(s.box, 1) && 0 in s.baselines && s.file == Some(1)
  {
    run := TwoArmsRun();
  }

  // ---------------------------------------------------------------- one waiter's own loop

  /** What one peek brought back: nothing, a refusal, or both queries' answers. */
  datatype Peek = Missed | Refused | Answered(unread: bool, high: nat)

  datatype Outcome = Woke | TimedOut | Failed

  class CursorFile {
    var cursor: Option<nat>

    constructor ()
      ensures cursor == None
    {
      cursor := None;
    }
  }

  predicate Quiet(p: Peek) { p.Missed? || (p.Answered? && !p.unread) }

  /** The largest high-water mark among quiet answers, and the cursor they started from. */
  function Consumed(start: nat, peeks: seq<Peek>): nat {
    if peeks == [] then start
    else
      var before, p := Consumed(start, peeks[..|peeks| - 1]), peeks[|peeks| - 1];
      if p.Answered? && p.high > before then p.high else before
  }

  function Armed(resumed: Option<nat>, arming: Peek): nat {
    if resumed.Some? then resumed.value else if arming.Answered? then arming.high else 0
  }

  /** Waiting began at `mark`: the cursor is never below it, and above it only where a peek since has answered so. */
  predicate StartsAt(mark: nat, peeks: seq<Peek>, cursor: Option<nat>) {
    && cursor.Some? && cursor.value >= mark
    && (cursor.value > mark ==> exists i :: 0 <= i < |peeks| && peeks[i].Answered? && peeks[i].high == cursor.value)
    && forall i :: 0 <= i < |peeks| && peeks[i].Answered? ==> peeks[i].high <= cursor.value
  }

  /**
   * The wait loop over the peeks it makes before its deadline. The first answer with unread mail
   * wakes it, and that answer's mark is never saved: only quiet answers move the cursor.
   */
  method WaitForMail(file: CursorFile, arming: Peek, peeks: seq<Peek>) returns (out: Outcome, ghost used: nat)
    modifies file
    ensures old(file.cursor).None? && arming.Refused? ==> out == Failed && file.cursor == None
    ensures old(file.cursor).Some? || !arming.Refused? ==>
      && used <= |peeks| && (forall i :: 0 <= i < used ==> Quiet(peeks[i]))
      && (out == TimedOut <==> used == |peeks|)
      && (out == Woke ==> peeks[used].Answered? && peeks[used].unread)
      && (out == Failed ==> peeks[used].Refused?)
      && file.cursor == Some(Consumed(Armed(old(file.cursor), arming), peeks[..used]))
    ensures old(file.cursor).Some? ==> StartsAt(old(file.cursor).value, peeks[..used], file.cursor)
    ensures old(file.cursor).None? && arming.Answered? ==> StartsAt(arming.high, peeks[..used], file.cursor)
    ensures old(file.cursor).None? && arming.Missed? ==> StartsAt(0, peeks[..used], file.cursor)
  {
    var after := 0;
    used := 0;
    if file.cursor.Some? {
      after := file.cursor.value;
    } else {
      if arming.Refused? { return Failed, 0; }
      if arming.Answered? { after := arming.high; }
      file.cursor := Some(after);
    }
    ghost var start := after;
    for i := 0 to |peeks|
      invariant used == i && forall j :: 0 <= j < i ==> Quiet(peeks[j])
      invariant file.cursor == Some(after) && after == Consumed(start, peeks[..i])
    {
      var p := peeks[i];
      ConsumedIsReported(start, peeks[..i]);
      if p.Answered? && p.unread { return Woke, i; }
      assert peeks[..i + 1][..i] == peeks[..i];
      if p.Answered? && p.high > after {
        after := p.high;
        file.cursor := Some(after);
      }
      if p.Refused? { return Failed, i; }
      used := i + 1;
    }
    ConsumedIsReported(start, peeks[..|peeks|]);
    return TimedOut, |peeks|;
  }

  /** A cursor only moves forward, and only to marks that quiet answers reported. */
  lemma {:induction false} ConsumedIsReported(start: nat, peeks: seq<Peek>)
    ensures Consumed(start, peeks) >= start
    ensures Consumed(start, peeks) == start ||
      exists i :: 0 <= i < |peeks| && peeks[i].Answered? && peeks[i].high == Consumed(start, peeks)
    ensures forall i :: 0 <= i < |peeks| && peeks[i].Answered? ==> peeks[i].high <= Consumed(start, peeks)
  {
    if peeks != [] {
      var before := peeks[..|peeks| - 1];
      ConsumedIsReported(start, before);
      assert forall i :: 0 <= i < |before| ==> before[i] == peeks[i];
    }
  }

  // ---------------------------------------------------------------- the loop is a waiter

  function Last(run: seq<State>): State
    requires |run| > 0
  {
    run[|run| - 1]
  }

  lemma Extended(run: seq<State>, s: State) returns (run': seq<State>)
    requires IsRun(run) && Next(Last(run), s)
    ensures IsRun(run') && run' == run + [s]
  {
    run' := run + [s];
    forall i | 0 <= i < |run'| - 1 ensures StepAt(run', i) {
      if i < |run| - 1 { assert StepAt(run, i); }
    }
  }

  /** Where a path that starts at `b` is before its step `i`. */
  function Before(b: Box, path: seq<Box>, i: nat): Box
    requires i <= |path|
  {
    if i == 0 then b else path[i - 1]
  }

  /** The inbox gets from `b` to the end of `path` by moves of its own. */
  ghost predicate Leads(b: Box, path: seq<Box>) {
    forall i :: 0 <= i < |path| ==> BoxMoves(Before(b, path, i), path[i])
  }

  function End(b: Box, path: seq<Box>): Box { Before(b, path, |path|) }

  lemma {:induction false} InboxGoes(run: seq<State>, path: seq<Box>) returns (run': seq<State>)
    requires IsRun(run) && Leads(Last(run).box, path)
    ensures IsRun(run') && run <= run' && Last(run') == Last(run).(box := End(Last(run).box, path))
    decreases |path|
  {
    if path == [] {
      run' := run;
    } else {
      var b, s := path[0], Last(run).(box := path[0]);
      assert BoxMoves(Before(Last(run).box, path, 0), path[0]) && BoxStep(Last(run), s);
      var run1 := Extended(run, s);
      forall i | 0 <= i < |path[1..]| ensures BoxMoves(Before(b, path[1..], i), path[1..][i]) {
        assert BoxMoves(Before(Last(run).box, path, i + 1), path[i + 1]);
      }
      run' := InboxGoes(run1, path[1..]);
    }
  }

  /** What the inbox does before a poll's first query, and between that and its second. */
  datatype Poll = Poll(before: seq<Box>, between: seq<Box>)

  function Asked(b: Box, p: Poll): Box { End(b, p.before) }

  function Decided(b: Box, p: Poll): Box { End(Asked(b, p), p.between) }

  /** The answer such a poll gives to a waiter at `after`, if it arrives. */
  ghost predicate Gives(b: Box, p: Poll, after: nat, peek: Peek) {
    && Leads(b, p.before) && Leads(Asked(b, p), p.between)
    && match peek
       case Missed => true
       case Refused => false
       case Answered(unread, high) => IsHighWater(Asked(b, p), high) && (unread <==> SeesMail(Decided(b, p), after))
  }

  /** Where the loop stands after an answer that does not wake it. */
  function Onward(after: nat, peek: Peek): nat {
    if peek.Answered? && peek.high > after then peek.high else after
  }

  /** One round of the loop is a few steps of a waiter: the answer with unread mail wakes it, any other moves it on. */
  lemma OneRound(run: seq<State>, k: nat, after: nat, p: Poll, peek: Peek) returns (run': seq<State>)
    requires IsRun(run) && k in Last(run).waiters && Last(run).waiters[k] == Polling(after)
    requires Last(run).file == Some(after) && Gives(Last(run).box, p, after, peek)
    ensures IsRun(run') && run <= run' && Last(run').box == Decided(Last(run).box, p) && k in Last(run').waiters
    ensures Quiet(peek) ==>
      Last(run').waiters[k] == Polling(Onward(after, peek)) && Last(run').file == Some(Onward(after, peek))
    ensures !Quiet(peek) ==> Last(run').waiters[k] == Woken(after) && Last(run').file == Some(after)
  {
    var run1 := InboxGoes(run, p.before);
    if peek.Missed? {
      run' := InboxGoes(run1, p.between);
    } else {
      var s1 := Last(run1);
      var s2 := With(s1, k, Between(after, peek.high));
      assert Asks(s1, k, peek.high, s2) && WaiterStep(s1, k, s2);
      var run2 := Extended(run1, s2);
      var run3 := InboxGoes(run2, p.between);
      run' := RoundEnds(run3, k, after, peek.high);
    }
  }

  lemma RoundEnds(run: seq<State>, k: nat, after: nat, high: nat) returns (run': seq<State>)
    requires IsRun(run) && k in Last(run).waiters && Last(run).waiters[k] == Between(after, high)
    requires Last(run).file == Some(after)
    ensures IsRun(run') && run <= run' && Last(run').box == Last(run).box && k in Last(run').waiters
    ensures if SeesMail(Last(run).box, after)
            then Last(run').waiters[k] == Woken(after) && Last(run').file == Some(after)
            else var c := Onward(after, Answered(false, high));
                 Last(run').waiters[k] == Polling(c) && Last(run').file == Some(c)
  {
    var s, sees := Last(run), SeesMail(Last(run).box, after);
    var w := if sees then Woken(after) else if high > after then Advancing(after, high) else Polling(after);
    var s1 := With(s, k, w);
    assert Decides(s, k, s1) && WaiterStep(s, k, s1);
    run' := Extended(run, s1);
    if !sees && high > after {
      var s2 := With(s1, k, Polling(high)).(file := Some(high), saved := s1.saved + {high});
      assert SavesAdvance(s1, k, s2) && WaiterStep(s1, k, s2);
      run' := Extended(run', s2);
    }
  }

  /** Where the inbox is after these polls. */
  function After(b: Box, polls: seq<Poll>): Box {
    if polls == [] then b else Decided(After(b, polls[..|polls| - 1]), polls[|polls| - 1])
  }

  /** These answers are what the polls gave a waiter that started at `start`. */
  ghost predicate Given(b: Box, polls: seq<Poll>, start: nat, peeks: seq<Peek>) {
    && |polls| == |peeks|
    && forall i :: 0 <= i < |peeks| ==> Gives(After(b, polls[..i]), polls[i], Consumed(start, peeks[..i]), peeks[i])
  }

  lemma GivenBefore(b: Box, polls: seq<Poll>, start: nat, peeks: seq<Peek>, n: nat)
    requires Given(b, polls, start, peeks) && n <= |peeks|
    ensures Given(b, polls[..n], start, peeks[..n])
  {
    forall i | 0 <= i < n
      ensures Gives(After(b, polls[..n][..i]), polls[..n][i], Consumed(start, peeks[..n][..i]), peeks[..n][i])
    {
      assert polls[..n][..i] == polls[..i] && peeks[..n][..i] == peeks[..i];
    }
  }

  lemma {:induction false} QuietRounds(run: seq<State>, k: nat, start: nat, polls: seq<Poll>, peeks: seq<Peek>)
    returns (run': seq<State>)
    requires IsRun(run) && k in Last(run).waiters && Last(run).waiters[k] == Polling(start)
    requires Last(run).file == Some(start) && Given(Last(run).box, polls, start, peeks)
    requires forall i :: 0 <= i < |peeks| ==> Quiet(peeks[i])
    ensures IsRun(run') && run <= run' && Last(run').box == After(Last(run).box, polls) && k in Last(run').waiters
    ensures Last(run').waiters[k] == Polling(Consumed(start, peeks)) && Last(run').file == Some(Consumed(start, peeks))
    decreases |peeks|
  {
    run' := run;
    if peeks != [] {
      var n := |peeks| - 1;
      GivenBefore(Last(run).box, polls, start, peeks, n);
      assert Gives(After(Last(run).box, polls[..n]), polls[n], Consumed(start, peeks[..n]), peeks[n]);
      var run1 := QuietRounds(run, k, start, polls[..n], peeks[..n]);
      run' := OneRound(run1, k, Consumed(start, peeks[..n]), polls[n], peeks[n]);
    }
  }

  /** Resuming, or arming, a waiter stands where the loop starts. */
  lemma LoopStarts(run: seq<State>, k: nat, path: seq<Box>, arming: Peek) returns (run': seq<State>)
    requires IsRun(run) && k !in Last(run).waiters && Leads(Last(run).box, path)
    requires Last(run).file.None? ==> !arming.Refused?
    requires arming.Answered? ==> IsHighWater(End(Last(run).box, path), arming.high)
    ensures IsRun(run') && run <= run' && Last(run').box == End(Last(run).box, path) && k in Last(run').waiters
    ensures var start := Armed(Last(run).file, arming);
      Last(run').waiters[k] == Polling(start) && Last(run').file == Some(start)
  {
    var s := Last(run);
    var s1 := With(s, k, if s.file.Some? then Polling(s.file.value) else Arming);
    assert Starts(s, k, s1) && WaiterStep(s, k, s1);
    var run1 := Extended(run, s1);
    run' := InboxGoes(run1, path);
    if s.file.None? {
      var high, s2 := Armed(None, arming), Last(run');
      var s3 := With(s2, k, Counted(high));
      assert Counts(s2, k, high, s3) && WaiterStep(s2, k, s3);
      run' := Extended(run', s3);
      var s4 := With(s3, k, Polling(high)).(file := Some(high), baselines := s3.baselines + {high},
                                           saved := s3.saved + {high});
      assert SavesBaseline(s3, k, s4) && WaiterStep(s3, k, s4);
      run' := Extended(run', s4);
    }
  }

  /**
   * What `WaitForMail` does is what a waiter of the state machine may do: from any reachable state, whatever the inbox
   * does around its queries, there is a run in which a waiter wakes, or goes on, with the very cursor the loop saves.
   */
  lemma LoopIsAWaiter(run: seq<State>, k: nat, path: seq<Box>, arming: Peek, polls: seq<Poll>, peeks: seq<Peek>,
                      used: nat) returns (run': seq<State>)
    requires IsRun(run) && k !in Last(run).waiters && Leads(Last(run).box, path)
    requires Last(run).file.None? ==> !arming.Refused?
    requires arming.Answered? ==> IsHighWater(End(Last(run).box, path), arming.high)
    requires Given(End(Last(run).box, path), polls, Armed(Last(run).file, arming), peeks)
    requires used <= |peeks| && forall i :: 0 <= i < used ==> Quiet(peeks[i])
    ensures IsRun(run') && run <= run' && k in Last(run').waiters
    ensures var c := Consumed(Armed(Last(run).file, arming), peeks[..used]);
      && Last(run').file == Some(c)
      && Last(run').waiters[k] == if used < |peeks| && !Quiet(peeks[used]) then Woken(c) else Polling(c)
  {
    var start, b := Armed(Last(run).file, arming), End(Last(run).box, path);
    var run1 := LoopStarts(run, k, path, arming);
    GivenBefore(b, polls, start, peeks, used);
    run' := QuietRounds(run1, k, start, polls[..used], peeks[..used]);
    if used < |peeks| && !Quiet(peeks[used]) {
      assert Gives(After(b, polls[..used]), polls[used], Consumed(start, peeks[..used]), peeks[used]);
      run' := OneRound(run', k, Consumed(start, peeks[..used]), polls[used], peeks[used]);
    }
  }
}
