/** Nobody but a broker holds its secret or its children's, and so nobody else can report on its tasks. */
module BrokerSecrets {
  import opened Wire
  import opened Ledger
  import opened LedgerRuns
  import opened LedgerInvariant
  import opened LedgerTheorems
  import opened Broker
  import opened BrokerSafety

  // ---------------------------------------------------------------- which transactions write credentials

  /** Every relay row of `agents'` was there before with the same kind and secret. */
  ghost predicate CredentialsKept(agents: Agents, agents': Agents) {
    forall row :: IsRelayRow(agents', row) ==>
      IsRelayRow(agents, row) && agents'[row].kind == agents[row].kind && agents'[row].secret == agents[row].secret
  }

  predicate WritesCredentials(op: Op) {
    op.Rows? && (op.row.RelayRow? || op.row.ReissueRow?)
  }

  lemma OthersKeepCredentials(d: Daemon, now: int, op: Op, d': Daemon)
    requires Takes(d, now, op, d') && !WritesCredentials(op)
    ensures CredentialsKept(d.db.agents, d'.db.agents)
  {
    match op
    case Tasks(t) => var w := TaskOpWrites(d.db, now, t);
    case House(h) => if h.SweepOne? { var w := SweepWrites(d.db, now, d.sweeper.todo[0]); }
    case _ =>
  }

  lemma LaunchStays(log: seq<Message>, t: TaskId, n: nat, m: nat)
    requires MailOf(log, t) == [] || Story(MailOf(log, t))
    requires Marked(log, t, n) && log[n].body.LaunchBody? && Marked(log, t, m) && log[m].body.LaunchBody?
    ensures n == m
  {
    MarkAtPlace(log, t, n);
    SameLaunch(log, t, n, m);
  }

  /** A task is launched to one broker for good: a launch that is new is of a task nobody knew. */
  lemma NewlyLaunched(s: Store, s': Store, t: TaskId, b: Session)
    requires StoriesFit(s) && StoriesFit(s') && s.mail.log <= s'.mail.log
    requires LaunchedTo(s'.mail.log, t, b) && MailOf(s.mail.log, t) != []
    ensures LaunchedTo(s.mail.log, t, b)
  {
    var m: nat :| LaunchMail(s'.mail.log, t, b, m);
    var n := TheLaunch(s.mail.log, t);
    LaunchStays(s'.mail.log, t, n, m);
    assert LaunchMail(s.mail.log, t, b, n);
  }

  // ---------------------------------------------------------------- what keeps the secrets

  /** A step that writes no credential, whatever else it does. */
  lemma KeptSecrets(y: System, y': System)
    requires SecretsSound(y) && StoriesFit(y.daemon.db) && StoriesFit(y'.daemon.db)
    requires y.daemon.db.mail.log <= y'.daemon.db.mail.log && CredentialsKept(y.daemon.db.agents, y'.daemon.db.agents)
    requires SameBrokers(y, y')
    ensures SecretsSound(y')
  {
    forall row | IsRelayRow(y'.daemon.db.agents, row) && y'.daemon.db.agents[row].kind == EyesChild
      ensures row.agent.Eyes? && MailOf(y'.daemon.db.mail.log, row.agent.task) != []
    {
      StoryOnlyGrows(y.daemon.db.mail.log, y'.daemon.db.mail.log, row.agent.task);
    }
    forall t: TaskId, b, row | IsOwnChild(y', t, b, row)
      ensures HeldSecret(y'.daemon.db.agents[row].secret, y'.held)
    {
      NewlyLaunched(y.daemon.db, y'.daemon.db, t, b);
      assert IsOwnChild(y, t, b, row);
    }
  }

  lemma SameSecrets(y: System, y': System)
    requires SecretsSound(y) && SameBrokers(y, y')
    requires y'.daemon.db.agents == y.daemon.db.agents && y'.daemon.db.mail == y.daemon.db.mail
    ensures SecretsSound(y')
  {
    assert forall t: TaskId, b, row :: IsOwnChild(y', t, b, row) ==> IsOwnChild(y, t, b, row);
  }

  predicate SameBrokers(y: System, y': System) {
    && y'.hosts.Keys == y.hosts.Keys && y.held <= y'.held
    && forall b :: b in y.hosts ==> y'.hosts[b].secret == y.hosts[b].secret
  }

  /** A launcher registers: a broker's own session stays bound to its secret, and children are not touched. */
  lemma RegisteredSecrets(y: System, now: int, row: Address, caps: set<Cap>, secret: Secret, y': System)
    requires SecretsSound(y) && RelayUnique(y.daemon.db.agents) && Open(y, Rows(RelayRow(row, caps, secret)))
    requires y'.daemon.db.agents == RegisterRelay(y.daemon.db.agents, now, row, caps, secret).0
    requires y'.daemon.db.mail == y.daemon.db.mail && y'.hosts == y.hosts && y'.held == y.held
    ensures SecretsSound(y')
  {
    var agents, agents' := y.daemon.db.agents, y'.daemon.db.agents;
    if agents' != agents {
      forall r | r != row && IsRelayRow(agents', r) ensures IsRelayRow(agents, r) && agents'[r] == agents[r] { }
      assert agents'[row].kind == Launcher;
      forall t: TaskId, b, r | IsOwnChild(y', t, b, r) ensures HeldSecret(agents'[r].secret, y'.held) {
        assert IsOwnChild(y, t, b, r);
      }
      RegisteredRowBound(agents, now, row, caps, secret);
    } else {
      SameSecrets(y, y');
    }
  }

  lemma RegisteredRowBound(agents: Agents, now: int, row: Address, caps: set<Cap>, secret: Secret)
    requires RelayUnique(agents) && RegisterRelay(agents, now, row, caps, secret).0 != agents
    ensures RegisterRelay(agents, now, row, caps, secret).0[row].secret == Some(secret)
    ensures (exists r :: IsRelayRow(agents, r) && r.agent == row.agent) ==>
              IsRelayRow(agents, row) && agents[row].secret == Some(secret)
  {
    if r :| IsRelayRow(agents, r) && r.agent == row.agent {
      assert FirstRow(agents, row.agent) == Some(r);
    }
  }

  /** A mint writes one child row, of the task it names. */
  lemma MintWrites(s: Store, now: int, t: TaskId, launcher: Session, secret: Secret, minted: Secret)
    requires ReissueRefused(s, t, launcher, secret).None?
    ensures var agents' := Reissue(s, now, t, launcher, secret, minted);
      && IsChildRow(agents', ChildRow(t, s.tasks[t]), t)
      && agents'[ChildRow(t, s.tasks[t])].secret == Some(minted)
      && forall r :: r != ChildRow(t, s.tasks[t]) && r in agents' ==> r in s.agents && agents'[r] == s.agents[r]
  {
  }

  /** The new secret is held, by the broker or by nobody, if the task is one of these brokers'. */
  lemma MintedSecrets(y: System, now: int, t: TaskId, launcher: Session, secret: Secret, minted: Secret, y': System)
    requires SecretsSound(y) && StoreInv(y.daemon.db)
    requires y'.daemon.db.agents == Reissue(y.daemon.db, now, t, launcher, secret, minted)
    requires y'.daemon.db.mail == y.daemon.db.mail && SameBrokers(y, y')
    requires minted in y'.held || (forall b :: b in y.hosts ==> !LaunchedTo(y.daemon.db.mail.log, t, b))
    ensures SecretsSound(y')
  {
    if ReissueRefused(y.daemon.db, t, launcher, secret).Some? {
      SameSecrets(y, y');
    } else {
      RowLaunched(y.daemon.db, t);
      MintWrites(y.daemon.db, now, t, launcher, secret, minted);
      OneChildSecret(y, ChildRow(t, y.daemon.db.tasks[t]), t, minted, y');
    }
  }

  lemma OneChildSecret(y: System, child: Address, t: TaskId, minted: Secret, y': System)
    requires SecretsSound(y) && y'.daemon.db.mail == y.daemon.db.mail && SameBrokers(y, y')
    requires IsChildRow(y'.daemon.db.agents, child, t) && y'.daemon.db.agents[child].secret == Some(minted)
    requires MailOf(y.daemon.db.mail.log, t) != []
    requires forall r :: r != child && r in y'.daemon.db.agents ==>
               r in y.daemon.db.agents && y'.daemon.db.agents[r] == y.daemon.db.agents[r]
    requires minted in y'.held || (forall b :: b in y.hosts ==> !LaunchedTo(y.daemon.db.mail.log, t, b))
    ensures SecretsSound(y')
  {
    forall u: TaskId, b, row | IsOwnChild(y', u, b, row)
      ensures HeldSecret(y'.daemon.db.agents[row].secret, y'.held)
    {
      if row != child { assert IsOwnChild(y, u, b, row); }
    }
  }

  // ---------------------------------------------------------------- outsiders

  /** A secret nobody holds opens neither a broker's session nor the child of a task launched to one. */
  lemma OutsiderIsNobody(y: System, session: Session, secret: Secret)
    requires SecretsSound(y) && RelayUnique(y.daemon.db.agents) && secret !in y.held
    requires VerifyRelaySecret(y.daemon.db.agents, session, secret).Some?
    ensures session !in y.hosts
    ensures forall t: TaskId, b, row :: IsOwnChild(y, t, b, row) ==> session != Eyes(t)
  {
    var row := VerifyRelaySecret(y.daemon.db.agents, session, secret).value;
    assert IsRelayRow(y.daemon.db.agents, row) && row.agent == session;
  }

  /** So an outsider's report on a broker's task is refused, and leaves the ledger as it was. */
  lemma OutsiderReportRefused(y: System, now: int, row: Address, session: Session, secret: Secret, target: Address,
                              body: Body)
    requires SecretsSound(y) && StoreInv(y.daemon.db) && secret !in y.held
    requires VerifyRelaySecret(y.daemon.db.agents, session, secret) == Some(row) && Claims(body).Some?
    requires body.task in y.daemon.db.tasks && y.daemon.db.tasks[body.task].launcher.agent in y.hosts
    ensures Report(y.daemon.db, now, Caller(row.scope, Some(row.agent), Relay, row), target, body).0 == y.daemon.db
    ensures Report(y.daemon.db, now, Caller(row.scope, Some(row.agent), Relay, row), target, body).1.Refused?
  {
    var s, t := y.daemon.db, body.task;
    OutsiderIsNobody(y, session, secret);
    RowLaunched(s, t);
    var child := ChildRow(t, s.tasks[t]);
    assert RelayKind(s.agents, child, EyesChild) ==> IsOwnChild(y, t, s.tasks[t].launcher.agent, child);
    assert RoleOf(s, t, s.tasks[t], Caller(row.scope, Some(row.agent), Relay, row)) == NoRole;
    NobodyIsRefused(s, now, Caller(row.scope, Some(row.agent), Relay, row), target, body);
  }

  lemma NobodyIsRefused(s: Store, now: int, a: Actor, target: Address, body: Body)
    requires Claims(body).Some? && body.task in s.tasks && RoleOf(s, body.task, s.tasks[body.task], a) == NoRole
    ensures Report(s, now, a, target, body).0 == s && Report(s, now, a, target, body).1.Refused?
  {
  }

  // ---------------------------------------------------------------- every step of the daemon

  lemma EnvSecrets(y: System, now: int, op: Op, y': System)
    requires SystemInv(y) && SecretsSound(y) && Inv(y'.daemon) && Open(y, op) && Takes(y.daemon, now, op, y'.daemon)
    requires y' == y.(daemon := y'.daemon)
    ensures SecretsSound(y')
  {
    if WritesCredentials(op) {
      RegisteredSecrets(y, now, op.row.row, op.row.caps, op.row.secret, y');
    } else {
      OthersKeepCredentials(y.daemon, now, op, y'.daemon);
      assert Next(y.daemon, y'.daemon);
      LogGrows(y.daemon, y'.daemon);
      KeptSecrets(y, y');
    }
  }

  lemma OutsideSecrets(y: System, now: int, req: Frame, minted: Secret, ok: bool, y': System)
    requires SystemInv(y) && SecretsSound(y) && Inv(y'.daemon) && req.secret !in y.held
    requires Serves(y.daemon, now, req, minted, ok, y'.daemon) && y' == y.(daemon := y'.daemon)
    ensures SecretsSound(y')
  {
    if req.ReportRequest? {
      ReportSecrets(y, now, req, minted, ok, y');
    } else if Gate(y.daemon.db, req, minted).Some? {
      OutsideMintSecrets(y, now, req, minted, y');
    } else {
      KeptSecrets(y, y');
    }
  }

  lemma OutsideMintSecrets(y: System, now: int, req: Frame, minted: Secret, y': System)
    requires SystemInv(y) && SecretsSound(y) && req.secret !in y.held && req.MintRequest? && SameBrokers(y, y')
    requires VerifyRelaySecret(y.daemon.db.agents, req.launcher, req.secret).Some?
    requires y'.daemon.db.agents == Reissue(y.daemon.db, now, req.task, req.launcher, req.secret, minted)
    requires y'.daemon.db.mail == y.daemon.db.mail
    ensures SecretsSound(y')
  {
    OutsiderIsNobody(y, req.launcher, req.secret);
    OutsiderMints(y, req.task, req.launcher, req.secret);
    if ReissueRefused(y.daemon.db, req.task, req.launcher, req.secret).Some? {
      SameSecrets(y, y');
    } else {
      MintedSecrets(y, now, req.task, req.launcher, req.secret, minted, y');
    }
  }

  /** An outsider mints only children of tasks of its own. */
  lemma OutsiderMints(y: System, t: TaskId, launcher: Session, secret: Secret)
    requires SystemInv(y) && launcher !in y.hosts
    ensures ReissueRefused(y.daemon.db, t, launcher, secret).Some? ||
            forall b :: b in y.hosts ==> !LaunchedTo(y.daemon.db.mail.log, t, b)
  {
    if ReissueRefused(y.daemon.db, t, launcher, secret).None? {
      RowLaunched(y.daemon.db, t);
      forall b | b in y.hosts && LaunchedTo(y.daemon.db.mail.log, t, b) ensures false {
        LaunchedToOne(y.daemon.db, t, b, launcher);
      }
    }
  }

  lemma ReportSecrets(y: System, now: int, req: Frame, minted: Secret, ok: bool, y': System)
    requires SystemInv(y) && SecretsSound(y) && Inv(y'.daemon) && SameBrokers(y, y')
    requires req.ReportRequest? && Serves(y.daemon, now, req, minted, ok, y'.daemon)
    ensures SecretsSound(y')
  {
    if Gate(y.daemon.db, req, minted).Some? {
      var op := Gate(y.daemon.db, req, minted).value;
      OthersKeepCredentials(y.daemon, now, op, y'.daemon);
      assert Next(y.daemon, y'.daemon);
      LogGrows(y.daemon, y'.daemon);
    }
    KeptSecrets(y, y');
  }

  /** A broker's own request, answered or replayed: a mint's secret joins those held. */
  lemma ServedSecrets(y: System, now: int, req: Frame, minted: Secret, ok: bool, y': System)
    requires SystemInv(y) && SecretsSound(y) && Inv(y'.daemon) && SameBrokers(y, y') && Issued(req, minted) <= y'.held
    requires Serves(y.daemon, now, req, minted, ok, y'.daemon)
    ensures SecretsSound(y')
  {
    if req.ReportRequest? {
      ReportSecrets(y, now, req, minted, ok, y');
    } else if Gate(y.daemon.db, req, minted).Some? {
      assert minted in Issued(req, minted);
      MintedSecrets(y, now, req.task, req.launcher, req.secret, minted, y');
    } else {
      KeptSecrets(y, y');
    }
  }
}
