/** The progress pump: one producer, a one-slot channel, one consumer, in every interleaving. */
module Pump {
  import opened Wire
  import opened Stream

  /** A sample on its way, and which offer it was. */
  datatype Ticket = Ticket(at: nat, sample: Sample)

  /** The producer inside `offer`, between its three non-blocking channel operations. */
  datatype Producer = Free | TryingFirst(ticket: Ticket) | Dropping(ticket: Ticket) | TryingAgain(ticket: Ticket)

  datatype Consumer = Waiting | Reporting(ticket: Ticket) | Finished

  /** `slot` is the channel; `offered` and `reported` are history. */
  datatype State = State(
    producer: Producer, slot: Option<Ticket>, consumer: Consumer, closed: bool, closeReturned: bool,
    offered: seq<Sample>, reported: seq<Ticket>)

  predicate Init(s: State) {
    s == State(Free, None, Waiting, false, false, [], [])
  }

  // ---------------------------------------------------------------- steps

  predicate Offer(s: State, sample: Sample, s': State) {
    && s.producer.Free?
    && s' == if s.closed then s
             else s.(producer := TryingFirst(Ticket(|s.offered|, sample)), offered := s.offered + [sample])
  }

  /** The next channel operation of an offer; each is a select with a default, so none ever waits. */
  function ProducerStep(s: State): State
    requires !s.producer.Free?
  {
    var full := s.slot.Some?;
    match s.producer
    case TryingFirst(t) => if full then s.(producer := Dropping(t)) else s.(slot := Some(t), producer := Free)
    case Dropping(t) => s.(slot := None, producer := TryingAgain(t))
    case TryingAgain(t) => if full then s.(producer := Free) else s.(slot := Some(t), producer := Free)
  }

  predicate Receive(s: State, s': State) {
    && s.consumer.Waiting?
    && (s.slot.Some? || s.closed)
    && s' == if s.slot.Some? then s.(slot := None, consumer := Reporting(s.slot.value)) else s.(consumer := Finished)
  }

  predicate Report(s: State, s': State) {
    s.consumer.Reporting? && s' == s.(consumer := Waiting, reported := s.reported + [s.consumer.ticket])
  }

  predicate BeginClose(s: State, s': State) {
    s.producer.Free? && s' == s.(closed := true)
  }

  predicate EndClose(s: State, s': State) {
    s.closed && s.consumer.Finished? && s' == s.(closeReturned := true)
  }

  ghost predicate Next(s: State, s': State) {
    || (exists sample :: Offer(s, sample, s'))
    || (!s.producer.Free? && s' == ProducerStep(s))
    || Receive(s, s') || Report(s, s') || BeginClose(s, s') || EndClose(s, s')
  }

  ghost predicate StepAt(run: seq<State>, i: nat)
    requires i < |run| - 1
  {
    Next(run[i], run[i + 1])
  }

  ghost predicate IsRun(run: seq<State>) {
    && |run| > 0 && Init(run[0])
    && forall i :: 0 <= i < |run| - 1 ==> StepAt(run, i)
  }

  // ---------------------------------------------------------------- the invariant

  /** Everything past the channel, in the order it left it, then what is still in it. */
  function Passed(s: State): seq<Ticket> {
    s.reported + (if s.consumer.Reporting? then [s.consumer.ticket] else [])
  }

  function Line(s: State): seq<Ticket> {
    Passed(s) + (if s.slot.Some? then [s.slot.value] else [])
  }

  predicate InOrder(line: seq<Ticket>, offered: seq<Sample>) {
    && (forall k :: 0 <= k < |line| ==> line[k].at < |offered| && offered[line[k].at] == line[k].sample)
    && (forall j, k :: 0 <= j < k < |line| ==> line[j].at < line[k].at)
  }

  /** The offer under way, if any, is the newest and is not in the line yet. */
  predicate Underway(s: State) {
    !s.producer.Free? ==>
      && !s.closed && s.offered != []
      && s.producer.ticket == Ticket(|s.offered| - 1, s.offered[|s.offered| - 1])
      && (forall k :: 0 <= k < |Line(s)| ==> Line(s)[k].at < |s.offered| - 1)
  }

  /** A finished offer's sample is the last of the line: queued, being reported, or reported. */
  predicate NewestKept(s: State) {
    s.producer.Free? && s.offered != [] ==> Line(s) != [] && Line(s)[|Line(s)| - 1].at == |s.offered| - 1
  }

  predicate Inv(s: State) {
    && InOrder(Line(s), s.offered) && Underway(s) && NewestKept(s)
    && (s.producer.TryingAgain? ==> s.slot.None?)
    && (s.consumer.Finished? ==> s.closed && s.slot.None? && s.producer.Free?)
    && (s.closeReturned ==> s.consumer.Finished?)
  }

  /** A producer's operation takes the ticket in the slot out, or puts its own there, or leaves the line. */
  lemma ProducerLine(s: State)
    requires !s.producer.Free?
    ensures var s' := ProducerStep(s);
      && Passed(s') == Passed(s)
      && (Line(s') == Line(s) || Line(s') == Passed(s) || (s.slot.None? && Line(s') == Line(s) + [s.producer.ticket]))
    ensures forall k :: 0 <= k < |Passed(s)| ==> Line(s)[k] == Passed(s)[k]
  {
    assert s.slot.None? ==> Line(s) == Passed(s);
  }

  lemma ProducerKeeps(s: State)
    requires Inv(s) && !s.producer.Free?
    ensures Inv(ProducerStep(s))
  {
    ProducerLine(s);
  }

  lemma ConsumerKeeps(s: State, s': State)
    requires Inv(s) && (Receive(s, s') || Report(s, s'))
    ensures Inv(s')
  {
    assert Line(s') == Line(s);
  }

  lemma StepKeeps(s: State, s': State)
    requires Inv(s) && Next(s, s')
    ensures Inv(s')
  {
    if Receive(s, s') || Report(s, s') { ConsumerKeeps(s, s'); }
    else if !s.producer.Free? && s' == ProducerStep(s) { ProducerKeeps(s); }
    else { CallKeeps(s, s'); }
  }

  /** A call that begins or returns moves nothing in the line. */
  lemma CallKeeps(s: State, s': State)
    requires Inv(s) && ((exists sample :: Offer(s, sample, s')) || BeginClose(s, s') || EndClose(s, s'))
    ensures Inv(s')
  {
    assert Line(s') == Line(s);
  }

  lemma {:induction false} RunKeeps(run: seq<State>, i: nat)
    requires IsRun(run) && i < |run|
    ensures Inv(run[i])
  {
    if i > 0 {
      RunKeeps(run, i - 1);
      assert StepAt(run, i - 1);
      StepKeeps(run[i - 1], run[i]);
    }
  }

  // ---------------------------------------------------------------- what the pump promises

  /** What is reported is a subsequence of what was offered. */
  lemma ReportsAreSubsequence(run: seq<State>, i: nat)
    requires IsRun(run) && i < |run|
    ensures var s := run[i];
      && (forall k :: 0 <= k < |s.reported| ==>
            s.reported[k].at < |s.offered| && s.reported[k].sample == s.offered[s.reported[k].at])
      && (forall j, k :: 0 <= j < k < |s.reported| ==> s.reported[j].at < s.reported[k].at)
  {
    RunKeeps(run, i);
    assert forall k :: 0 <= k < |run[i].reported| ==> Line(run[i])[k] == run[i].reported[k];
  }

  /** When no offer is under way, the newest sample is queued, being reported, or was reported last. */
  lemma NewestWins(run: seq<State>, i: nat)
    requires IsRun(run) && i < |run| && run[i].producer.Free? && run[i].offered != []
    ensures var s := run[i]; var newest := Ticket(|s.offered| - 1, s.offered[|s.offered| - 1]);
      || s.slot == Some(newest)
      || (s.slot.None? && s.consumer == Reporting(newest))
      || (s.slot.None? && !s.consumer.Reporting? && s.reported != [] && s.reported[|s.reported| - 1] == newest)
  {
    RunKeeps(run, i);
    var s := run[i];
    assert Line(s)[|Line(s)| - 1] == Ticket(|s.offered| - 1, s.offered[|s.offered| - 1]);
  }

  /** Once close has returned, the last report was the last offer. */
  lemma LastReportIsLastOffer(run: seq<State>, i: nat)
    requires IsRun(run) && i < |run| && run[i].closeReturned && run[i].offered != []
    ensures var s := run[i];
      s.reported != [] && s.reported[|s.reported| - 1].sample == s.offered[|s.offered| - 1]
  {
    RunKeeps(run, i);
    NewestWins(run, i);
  }

  /**
   * An offer ends after at most three operations, whatever the consumer does in between, and never loses its sample
   * to a full slot.
   */
  lemma OfferNeverFails(run: seq<State>, i: nat)
    requires IsRun(run) && i < |run| && !run[i].producer.Free?
    ensures var s' := ProducerStep(run[i]);
      || (s'.producer.Free? && s'.slot == Some(run[i].producer.ticket))
      || Stage(s'.producer) < Stage(run[i].producer)
  {
    RunKeeps(run, i);
  }

  function Stage(p: Producer): nat {
    match p
    case TryingFirst(_) => 3
    case Dropping(_) => 2
    case TryingAgain(_) => 1
    case Free => 0
  }

  // ---------------------------------------------------------------- and that it can always be closed

  function Last(run: seq<State>): State
    requires |run| > 0
  {
    run[|run| - 1]
  }

  lemma Extended(run: seq<State>, s: State) returns (run': seq<State>)
    requires IsRun(run) && Next(Last(run), s)
    ensures IsRun(run') && run' == run + [s]
  {
    run' := run + [s];
    forall i | 0 <= i < |run'| - 1 ensures StepAt(run', i) {
      if i < |run| - 1 { assert StepAt(run, i); }
    }
  }

  /** An offer under way can finish. */
  lemma {:induction false} OfferEnds(run: seq<State>) returns (run': seq<State>)
    requires IsRun(run)
    ensures IsRun(run') && run <= run' && Last(run').producer.Free? && Last(run').offered == Last(run).offered
    ensures Last(run').closed == Last(run).closed
    decreases Stage(Last(run).producer)
  {
    run' := run;
    if !Last(run).producer.Free? {
      OfferNeverFails(run, |run| - 1);
      var run1 := Extended(run, ProducerStep(Last(run)));
      run' := OfferEnds(run1);
    }
  }

  /** What has left the channel can be reported. */
  lemma ReportEnds(run: seq<State>) returns (run': seq<State>)
    requires IsRun(run)
    ensures IsRun(run') && run <= run' && !Last(run').consumer.Reporting?
    ensures Last(run') == Last(run).(consumer := Last(run').consumer, reported := Passed(Last(run)))
  {
    run' := run;
    var s := Last(run);
    if s.consumer.Reporting? {
      run' := Extended(run, s.(consumer := Waiting, reported := s.reported + [s.consumer.ticket]));
    }
  }

  /** A closed pump's consumer can empty the channel and finish. */
  lemma {:induction false} Drains(run: seq<State>) returns (run': seq<State>)
    requires IsRun(run) && Last(run).closed && Last(run).producer.Free?
    ensures IsRun(run') && run <= run' && Last(run').closed && Last(run').consumer.Finished?
    ensures Last(run').offered == Last(run).offered
    decreases if Last(run).slot.Some? then 1 else 0
  {
    var run1 := ReportEnds(run);
    var s := Last(run1);
    if s.consumer.Finished? {
      run' := run1;
    } else if s.slot.Some? {
      var run2 := Extended(run1, s.(slot := None, consumer := Reporting(s.slot.value)));
      run' := Drains(run2);
    } else {
      run' := Extended(run1, s.(consumer := Finished));
    }
  }

  /** From any reachable state the pump can be closed, with its last offer reported last. */
  lemma CloseCanReturn(run: seq<State>) returns (run': seq<State>)
    requires IsRun(run)
    ensures IsRun(run') && run <= run' && Last(run').closeReturned && Last(run').offered == Last(run).offered
    ensures var s := Last(run');
      s.offered != [] ==> s.reported != [] && s.reported[|s.reported| - 1].sample == s.offered[|s.offered| - 1]
  {
    var run1 := OfferEnds(run);
    var run2 := Extended(run1, Last(run1).(closed := true));
    var run3 := Drains(run2);
    run' := Extended(run3, Last(run3).(closeReturned := true));
    if Last(run').offered != [] { LastReportIsLastOffer(run', |run'| - 1); }
  }
}
