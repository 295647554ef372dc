/** Runs of the ledger that end in a launch its broker does not understand, one for each way to get there. */
module BriefScenarios {
  import opened Wire
  import opened Ledger
  import opened LedgerRuns
  import opened LaunchRules
  import opened Envelopes
  import opened Scenario
  import Broker
  import Mail

  const HOST_SCOPE := Scope.Host("pc")

  const BLANK := ASKED.(brief := " \n")
  const HURRIED := ASKED.(deadlineS := 10)
  const HOST_ASKER_ROW := Address(HOST_SCOPE, Named("asker"))
  const NEIGHBOUR := ASKED.(requester := HOST_ASKER_ROW)

  /** As long as a brief may be, and twice that when it is encoded. */
  function Quotes(): Request {
    ASKED.(brief := seq(MAX_BRIEF, _ => '"'))
  }

  lemma AskedIsTakeable()
    ensures Takeable(ASKED, HOST_SCOPE)
  {
    LaunchIsValid();
  }

  lemma BlankIsNot()
    ensures !Takeable(BLANK, HOST_SCOPE)
  {
    assert Blank(" \n");
  }

  lemma HurriedIsNot()
    ensures !Takeable(HURRIED, HOST_SCOPE)
  {
  }

  lemma NeighbourIsNot()
    ensures !Takeable(NEIGHBOUR, HOST_SCOPE)
  {
  }

  /** A brief within its own bound, and not blank, whose encoding alone fills a message. */
  lemma QuotesAreNot()
    ensures ValidBrief(Quotes().brief) && !Takeable(Quotes(), HOST_SCOPE)
  {
    QuotesDouble(MAX_BRIEF);
    assert Quotes().brief[0] == '"' && !IsSpace('"');
  }

  // ---------------------------------------------------------------- the runs

  /** The asker registers, then the broker. */
  function Registered(asker: Address): Agents {
    map[asker := ASKER, BROKER_ROW := LAUNCHER]
  }

  function Ready(asker: Address): Daemon {
    Daemon(Store(1, Registered(asker), map[], Mail.Store([], {}, map[])), Resting)
  }

  ghost function Asked(req: Request): Daemon {
    var d := Ready(req.requester);
    d.(db := Assign(d.db, 1, req, 0, Some(BROKER_ROW)).0)
  }

  predicate ByAsker(req: Request) {
    req.requester.agent == Named("asker") && req.runtime == "claude"
  }

  lemma BothRegister(asker: Address)
    requires asker.agent == Named("asker")
    ensures LedgerRuns.IsRun([EMPTY, EMPTY.(db := EMPTY.db.(agents := map[asker := ASKER])), Ready(asker)])
  {
    var one := EMPTY.(db := EMPTY.db.(agents := map[asker := ASKER]));
    assert Takes(EMPTY, 1, Rows(RegisterRow(asker, None)), one);
    assert FirstRow(one.db.agents, BROKER) == None;
    assert Takes(one, 1, Rows(RelayRow(BROKER_ROW, CAPS, 1)), Ready(asker));
    assert Next(EMPTY, one) && Next(one, Ready(asker));
  }

  lemma BriefIsAssigned(req: Request)
    requires ByAsker(req)
    ensures Takes(Ready(req.requester), 1, Tasks(AssignTask(req, 0, Some(BROKER_ROW))), Asked(req))
    ensures Assign(Ready(req.requester).db, 1, req, 0, Some(BROKER_ROW)).1.None?
  {
    var s := Ready(req.requester).db;
    assert Candidate(s, 1, BROKER_ROW);
    assert forall row :: Candidate(s, 1, row) ==> row == BROKER_ROW;
    assert Provider("claude") in CAPS && Chrome in CAPS;
    assert PickLauncher(s, "claude", Some(BROKER_ROW)) == Picked(BROKER_ROW);
  }

  lemma LaunchIsOwed(req: Request)
    requires ByAsker(req) && Assign(Ready(req.requester).db, 1, req, 0, Some(BROKER_ROW)).1.None?
    ensures PendingLaunch(Asked(req).db, BROKER, 0, 0) && |Asked(req).db.mail.log| == 1
  {
    var s := Asked(req).db;
    assert FirstRow(s.agents, BROKER) == Some(BROKER_ROW);
    assert ToLauncher(s, 0, BROKER_ROW, 0);
  }

  /** Any such brief makes a run: it is assigned and its launch is owed, understood exactly when it was takeable. */
  lemma AskedRun(req: Request) returns (run: seq<Daemon>)
    requires ByAsker(req)
    ensures LedgerRuns.IsRun(run) && |run| == 4
    ensures Takes(run[2], 1, Tasks(AssignTask(req, 0, Some(BROKER_ROW))), run[3])
    ensures PendingLaunch(run[3].db, BROKER, 0, 0) && |run[3].db.mail.log| == 1
    ensures Broker.AcceptedLaunch(run[3].db.mail.log[0]) <==> Takeable(req, HOST_SCOPE)
  {
    BothRegister(req.requester);
    BriefIsAssigned(req);
    LaunchIsOwed(req);
    run := [EMPTY, EMPTY.(db := EMPTY.db.(agents := map[req.requester := ASKER])), Ready(req.requester)];
    run := Extended(run, Asked(req));
    LaunchesAreUnderstood(run, 2, 3, 1, req, 0, Some(BROKER_ROW), BROKER, 0);
  }

  lemma Extended(run: seq<Daemon>, d: Daemon) returns (run': seq<Daemon>)
    requires LedgerRuns.IsRun(run) && Next(run[|run| - 1], d)
    ensures LedgerRuns.IsRun(run') && run' == run + [d]
  {
    run' := run + [d];
    forall i | 0 <= i < |run'| - 1 ensures LedgerRuns.StepAt(run', i) {
      if i < |run| - 1 { assert LedgerRuns.StepAt(run, i); }
    }
  }

  predicate Misunderstood(req: Request) {
    req == BLANK || req == HURRIED || req == NEIGHBOUR || req == Quotes()
  }

  /**
   * The ledger takes a blank brief, one with ten seconds to run, one from the broker's own scope, and one
   * too long to send. The task is queued, and the launch its broker is owed is one it drops.
   */
  lemma TakenYetDropped(req: Request) returns (run: seq<Daemon>)
    requires Misunderstood(req)
    ensures LedgerRuns.IsRun(run) && |run| == 4
    ensures Takes(run[2], 1, Tasks(AssignTask(req, 0, Some(BROKER_ROW))), run[3])
    ensures PendingLaunch(run[3].db, BROKER, 0, 0) && |run[3].db.mail.log| == 1
    ensures !Broker.AcceptedLaunch(run[3].db.mail.log[0])
  {
    run := AskedRun(req);
    BlankIsNot();
    HurriedIsNot();
    NeighbourIsNot();
    QuotesAreNot();
  }

  /** While the same asker's brief to look at a page is one it takes. */
  lemma TakenAndUnderstood() returns (run: seq<Daemon>)
    ensures LedgerRuns.IsRun(run) && |run| == 4
    ensures Takes(run[2], 1, Tasks(AssignTask(ASKED, 0, Some(BROKER_ROW))), run[3])
    ensures PendingLaunch(run[3].db, BROKER, 0, 0) && |run[3].db.mail.log| == 1
    ensures Broker.AcceptedLaunch(run[3].db.mail.log[0])
  {
    run := AskedRun(ASKED);
    AskedIsTakeable();
  }
}
