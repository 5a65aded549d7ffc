/**
 * Opening a session, as every host configuration does it: configure the
 * client, connect and check the greeting, choose the data-connection mode,
 * log in with the command listener detached, change to the configured root
 * directory and settle the absolute remote root.
 *
 * `SetupPlan` is the reference: the calls a session makes when the server
 * accepts everything.  `RunSetup` is what a session actually does against a
 * scripted server, stage by stage as the configurations' methods do it, and
 * the lemmas relate the two.  The host configurations differ only in the
 * `SetupParams` they derive (trimmed host or not, override credentials,
 * control encoding) and in how they wrap a failure.
 */
module SessionPlan {
  import opened Ftp
  import opened PublishOver
  import opened Text

  datatype SetupParams = SetupParams(
    verbose: bool,
    timeout: int,
    encoding: Option<string>,
    host: string,
    port: int,
    useActiveData: bool,
    username: string,
    password: string,
    root: Option<string>)

  /** A directory is absolute when it starts with "/" or "\"; the value is
      tested as it is, without trimming. */
  predicate IsDirAbsolute(dir: Option<string>) {
    dir.Some? && |dir.value| > 0 && (dir.value[0] == '/' || dir.value[0] == '\\')
  }

  lemma AbsoluteIsNotBlank(dir: Option<string>)
    ensures IsDirAbsolute(dir) ==> !IsBlank(dir)
  {
  }

  /** A root written with a leading blank is not absolute, although it is
      not blank either: it is sent to CWD and then resolved through PWD. */
  lemma LeadingBlankRootIsRelative()
    ensures !IsDirAbsolute(Some(" /pub")) && !IsBlank(Some(" /pub"))
  {
    assert " /pub"[1] == '/';
  }

  function ListenerCommands(p: SetupParams): seq<Command> {
    if p.verbose then [AddProtocolCommandListener] else []
  }

  function ConfigureCommands(p: SetupParams): seq<Command> {
    [SetDefaultTimeout(p.timeout), SetDataTimeout(p.timeout)] +
    (if p.encoding.Some? then [SetControlEncoding(p.encoding.value)] else [])
  }

  function ModeCommand(active: bool): Command {
    if active then EnterLocalActiveMode else EnterLocalPassiveMode
  }

  function ConnectCommands(p: SetupParams): seq<Command> {
    [Connect(p.host, p.port), GetReplyCode, ModeCommand(p.useActiveData)]
  }

  function LoginAttempt(p: SetupParams): seq<Command> {
    (if p.verbose then [RemoveProtocolCommandListener] else []) + [Login(p.username, p.password)]
  }

  function LoginCommands(p: SetupParams): seq<Command> {
    LoginAttempt(p) + ListenerCommands(p)
  }

  function RootCwdCommands(p: SetupParams): seq<Command> {
    if IsBlank(p.root) then [] else [ChangeWorkingDirectory(p.root.value)]
  }

  function RootPwdCommands(p: SetupParams): seq<Command> {
    if IsDirAbsolute(p.root) then [] else [PrintWorkingDirectory]
  }

  /** The calls of a session setup the server accepts throughout. */
  function SetupPlan(p: SetupParams): seq<Command> {
    ListenerCommands(p) + ConfigureCommands(p) + ConnectCommands(p) +
    LoginCommands(p) + RootCwdCommands(p) + RootPwdCommands(p)
  }

  /** How far one stage got: its outcome and the calls it made. */
  datatype Stage = Stage(outcome: Outcome, issued: seq<Command>)

  /** connect: open the connection, read the greeting's reply code, refuse
      anything but a positive completion, then choose the data mode. */
  function ConnectStage(p: SetupParams, s: Script): (st: Stage)
    ensures st.issued <= ConnectCommands(p)
    ensures st.outcome.Done? <==> s.connectFault.None? && IsPositiveCompletion(s.replyCode)
    ensures st.outcome.Done? ==> st.issued == ConnectCommands(p)
  {
    if s.connectFault.Some? then
      Stage(Abort(Thrown(s.connectFault.value)), [Connect(p.host, p.port)])
    else if !IsPositiveCompletion(s.replyCode) then
      Stage(Abort(BapPublisherException(ConnectFailed(p.host, p.port, s.replyCode), None)),
            [Connect(p.host, p.port), GetReplyCode])
    else
      Stage(Done, ConnectCommands(p))
  }

  /** login: with the listener (if any) detached so the password is not
      echoed; it is attached again only after a successful login. */
  function LoginStage(p: SetupParams, s: Script): (st: Stage)
    ensures st.issued <= LoginCommands(p)
    ensures st.outcome.Done? <==> LoginReply(s, p.username, p.password) == Value(true)
    ensures st.outcome.Done? ==> st.issued == LoginCommands(p)
  {
    match LoginReply(s, p.username, p.password)
    case Raise(x) => Stage(Abort(Thrown(x)), LoginAttempt(p))
    case Value(ok) =>
      if ok then Stage(Done, LoginCommands(p))
      else Stage(Abort(BapPublisherException(LogInFailed(p.username), None)), LoginAttempt(p))
  }

  /** changeToRootDirectory: a root that is not blank is entered as it is
      written; a CWD that fails with an IOException is reported with the
      directory and the cause. */
  function RootCwdStage(p: SetupParams, s: Script, here: Folder): (st: Stage)
    ensures st.issued == RootCwdCommands(p)
    ensures st.outcome.Done? <==> IsBlank(p.root) || CwdReply(here, s.paths, p.root.value) == Value(true)
  {
    if IsBlank(p.root) then Stage(Done, [])
    else
      var dir := p.root.value;
      match CwdReply(here, s.paths, dir)
      case Raise(x) => Stage(Abort(Wrap(x, CwdException(dir))), [ChangeWorkingDirectory(dir)])
      case Value(ok) =>
        if ok then Stage(Done, [ChangeWorkingDirectory(dir)])
        else Stage(Abort(BapPublisherException(CwdRemoteRoot(dir), None)), [ChangeWorkingDirectory(dir)])
  }

  /** Where changeToRootDirectory leaves the cursor: in the configured root
      when that is not blank and the server accepts the CWD, otherwise where
      it was. */
  function RootCursor(p: SetupParams, s: Script, here: Folder, above: seq<Frame>): (Folder, seq<Frame>) {
    if !IsBlank(p.root) && CwdReply(here, s.paths, p.root.value) == Value(true)
    then CwdMove(here, above, s.paths, p.root.value)
    else (here, above)
  }

  /** Where init leaves the cursor: the root stage is reached only once the
      connection and the login succeed. */
  function SetupCursor(p: SetupParams, s: Script, here: Folder, above: seq<Frame>): (Folder, seq<Frame>) {
    if ConnectStage(p, s).outcome.Done? && LoginStage(p, s).outcome.Done? then RootCursor(p, s, here, above)
    else (here, above)
  }

  /** The outcome of a whole setup: the absolute remote root, or the error. */
  datatype SetupRun = SetupRun(outcome: Result<string>, issued: seq<Command>)

  /** setRootDirectoryInClient: an absolute configured root is kept as it
      is; otherwise the server's working directory is asked for, and it
      must be absolute. */
  function RootStage(p: SetupParams, s: Script): (run: SetupRun)
    ensures run.issued == RootPwdCommands(p)
    ensures run.outcome.Ok? ==> IsDirAbsolute(Some(run.outcome.value))
  {
    if IsDirAbsolute(p.root) then SetupRun(Ok(p.root.value), [])
    else
      match s.pwd
      case Raise(x) => SetupRun(Err(Thrown(x)), [PrintWorkingDirectory])
      case Value(pwd) =>
        if IsDirAbsolute(pwd) then SetupRun(Ok(pwd.value), [PrintWorkingDirectory])
        else SetupRun(Err(BapPublisherException(PwdNotAbsolute(pwd), None)), [PrintWorkingDirectory])
  }

  /** The tail of a setup after the login: enter the root, then settle it. */
  function RootRun(p: SetupParams, s: Script, here: Folder): SetupRun {
    var cwd := RootCwdStage(p, s, here);
    if cwd.outcome.Abort? then SetupRun(Err(cwd.outcome.error), cwd.issued)
    else
      var root := RootStage(p, s);
      SetupRun(root.outcome, cwd.issued + root.issued)
  }

  /** The tail of a setup after the connection: log in, then `RootRun`. */
  function LoginRun(p: SetupParams, s: Script, here: Folder): SetupRun {
    var login := LoginStage(p, s);
    if login.outcome.Abort? then SetupRun(Err(login.outcome.error), login.issued)
    else
      var rest := RootRun(p, s, here);
      SetupRun(rest.outcome, login.issued + rest.issued)
  }

  /** The tail of a setup after the configuration: connect, then
      `LoginRun`. */
  function ConnectRun(p: SetupParams, s: Script, here: Folder): SetupRun {
    var connect := ConnectStage(p, s);
    if connect.outcome.Abort? then SetupRun(Err(connect.outcome.error), connect.issued)
    else
      var rest := LoginRun(p, s, here);
      SetupRun(rest.outcome, connect.issued + rest.issued)
  }

  /** init, stage by stage, stopping at the first failure: the listener
      and the configuration, then `ConnectRun`. */
  function RunSetup(p: SetupParams, s: Script, here: Folder): SetupRun {
    var run := ConnectRun(p, s, here);
    SetupRun(run.outcome, ListenerCommands(p) + ConfigureCommands(p) + run.issued)
  }

  /** Everything a session needs from the server, stated independently of
      the order in which it is asked for. */
  predicate Accepted(p: SetupParams, s: Script, here: Folder) {
    && s.connectFault.None?
    && IsPositiveCompletion(s.replyCode)
    && s.loginFault.None?
    && (p.username, p.password) in s.accounts
    && (IsBlank(p.root) || CwdReply(here, s.paths, p.root.value) == Value(true))
    && (IsDirAbsolute(p.root) || (s.pwd.Value? && IsDirAbsolute(s.pwd.value)))
  }

  /** The root a successful session settles on. */
  function ResolvedRoot(p: SetupParams, s: Script): string
    requires IsDirAbsolute(p.root) || (s.pwd.Value? && IsDirAbsolute(s.pwd.value))
  {
    if IsDirAbsolute(p.root) then p.root.value else s.pwd.value.value
  }

  /** Appending one run of calls after another. */
  lemma Appended(a: seq<Command>, b: seq<Command>, c: seq<Command>)
    ensures a + b + c == a + (b + c)
  {
  }

  lemma PrefixThen(a: seq<Command>, b: seq<Command>, c: seq<Command>)
    requires a <= b
    ensures a <= b + c
  {
    assert (b + c)[..|a|] == a;
  }

  lemma PrefixAfter(x: seq<Command>, a: seq<Command>, b: seq<Command>)
    requires a <= b
    ensures x + a <= x + b
  {
    assert (x + b)[..|x + a|] == x + a;
  }

  /** The calls of the plan from the root on. */
  function RootPlan(p: SetupParams): seq<Command> {
    RootCwdCommands(p) + RootPwdCommands(p)
  }

  lemma LoginRunFollowsPlan(p: SetupParams, s: Script, here: Folder)
    ensures LoginRun(p, s, here).issued <= LoginCommands(p) + RootPlan(p)
  {
    var login := LoginStage(p, s);
    if login.outcome.Abort? {
      PrefixThen(login.issued, LoginCommands(p), RootPlan(p));
    } else {
      var rest := RootRun(p, s, here);
      assert rest.issued <= RootPlan(p);
      PrefixAfter(LoginCommands(p), rest.issued, RootPlan(p));
    }
  }

  lemma ConnectRunFollowsPlan(p: SetupParams, s: Script, here: Folder)
    ensures ConnectRun(p, s, here).issued <= ConnectCommands(p) + (LoginCommands(p) + RootPlan(p))
  {
    var connect := ConnectStage(p, s);
    if connect.outcome.Abort? {
      PrefixThen(connect.issued, ConnectCommands(p), LoginCommands(p) + RootPlan(p));
    } else {
      LoginRunFollowsPlan(p, s, here);
      PrefixAfter(ConnectCommands(p), LoginRun(p, s, here).issued, LoginCommands(p) + RootPlan(p));
    }
  }

  /** Whatever the server answers, a setup makes the calls of the plan in the
      plan's order and stops early at most. */
  lemma SetupFollowsPlan(p: SetupParams, s: Script, here: Folder)
    ensures RunSetup(p, s, here).issued <= SetupPlan(p)
  {
    var pre := ListenerCommands(p) + ConfigureCommands(p);
    var tail := ConnectCommands(p) + (LoginCommands(p) + RootPlan(p));
    ConnectRunFollowsPlan(p, s, here);
    PrefixAfter(pre, ConnectRun(p, s, here).issued, tail);
    assert SetupPlan(p) == pre + tail;
  }

  /** A setup succeeds exactly when the server accepts every step; it then
      made every call of the plan and settled on an absolute root: the
      configured one if that is absolute, the server's working directory
      otherwise. */
  lemma SetupSucceedsIffAccepted(p: SetupParams, s: Script, here: Folder)
    ensures RunSetup(p, s, here).outcome.Ok? <==> Accepted(p, s, here)
    ensures Accepted(p, s, here) ==>
      RunSetup(p, s, here).issued == SetupPlan(p) &&
      RunSetup(p, s, here).outcome.value == ResolvedRoot(p, s) &&
      IsDirAbsolute(Some(ResolvedRoot(p, s)))
  {
    if Accepted(p, s, here) {
      assert LoginReply(s, p.username, p.password) == Value(true);
    }
  }

  /** Once init succeeds, the session stands in the configured root when
      that is not blank, and where it started otherwise: this is the folder
      a later deleteTree empties. */
  lemma OpenSessionStandsInRoot(p: SetupParams, s: Script, here: Folder, above: seq<Frame>)
    requires RunSetup(p, s, here).outcome.Ok?
    ensures SetupCursor(p, s, here, above) ==
      if IsBlank(p.root) then (here, above) else CwdMove(here, above, s.paths, p.root.value)
  {
    SetupSucceedsIffAccepted(p, s, here);
    assert LoginReply(s, p.username, p.password) == Value(true);
  }

  /** A greeting that is not a positive completion ends the setup right after
      the reply code is read: no data mode is chosen and no login is tried. */
  lemma ConnectRefusedStopsBeforeLogin(p: SetupParams, s: Script, here: Folder)
    requires s.connectFault.None? && !IsPositiveCompletion(s.replyCode)
    ensures RunSetup(p, s, here).outcome == Err(BapPublisherException(ConnectFailed(p.host, p.port, s.replyCode), None))
    ensures RunSetup(p, s, here).issued ==
      ListenerCommands(p) + ConfigureCommands(p) + [Connect(p.host, p.port), GetReplyCode]
  {
  }

  /** A refused login names the user (never the password) and stops before
      any directory is touched, with the listener still detached. */
  lemma LoginRefusedLeavesListenerDetached(p: SetupParams, s: Script, here: Folder)
    requires s.connectFault.None? && IsPositiveCompletion(s.replyCode)
    requires LoginReply(s, p.username, p.password) == Value(false)
    ensures RunSetup(p, s, here).outcome == Err(BapPublisherException(LogInFailed(p.username), None))
    ensures RunSetup(p, s, here).issued ==
      ListenerCommands(p) + ConfigureCommands(p) + ConnectCommands(p) + LoginAttempt(p)
    ensures !Attached(RunSetup(p, s, here).issued)
  {
    var t := RunSetup(p, s, here).issued;
    if !p.verbose {
      NoListenerNotAttached(t);
    }
  }

  /** Whether the command listener is attached after the calls `t`, starting
      from a client without one. */
  predicate Attached(t: seq<Command>) {
    if t == [] then false
    else if t[|t| - 1] == AddProtocolCommandListener then true
    else if t[|t| - 1] == RemoveProtocolCommandListener then false
    else Attached(t[..|t| - 1])
  }

  predicate NoListenerCommand(t: seq<Command>) {
    AddProtocolCommandListener !in t && RemoveProtocolCommandListener !in t
  }

  lemma {:induction false} NoListenerNotAttached(t: seq<Command>)
    requires NoListenerCommand(t)
    ensures !Attached(t)
  {
    if t != [] {
      assert t[|t| - 1] in t;
      assert forall c :: c in t[..|t| - 1] ==> c in t;
      NoListenerNotAttached(t[..|t| - 1]);
    }
  }

  lemma {:induction false} AttachedAppend(a: seq<Command>, b: seq<Command>)
    requires NoListenerCommand(b)
    ensures Attached(a + b) == Attached(a)
  {
    if b != [] {
      assert (a + b)[..|a + b| - 1] == a + b[..|b| - 1];
      assert b[|b| - 1] in b;
      assert forall c :: c in b[..|b| - 1] ==> c in b;
      AttachedAppend(a, b[..|b| - 1]);
    } else {
      assert a + b == a;
    }
  }

  /** Phases of a setup: configuration (0), connect (1), reply code (2),
      data mode (3), login (4), root CWD (5), PWD (6).  Listener calls and
      calls a setup never makes have none. */
  function Phase(c: Command): Option<nat> {
    match c
    case SetDefaultTimeout(_) => Some(0)
    case SetDataTimeout(_) => Some(0)
    case SetControlEncoding(_) => Some(0)
    case Connect(_, _) => Some(1)
    case GetReplyCode => Some(2)
    case EnterLocalActiveMode => Some(3)
    case EnterLocalPassiveMode => Some(3)
    case Login(_, _) => Some(4)
    case ChangeWorkingDirectory(_) => Some(5)
    case PrintWorkingDirectory => Some(6)
    case _ => None
  }

  /** Every call of `t` that has a phase has one in [lo, hi]. */
  predicate Within(t: seq<Command>, lo: nat, hi: nat) {
    forall c :: c in t && Phase(c).Some? ==> lo <= Phase(c).value <= hi
  }

  /** Phases never go back along `t`. */
  predicate Phased(t: seq<Command>) {
    forall i, j :: 0 <= i < j < |t| && Phase(t[i]).Some? && Phase(t[j]).Some? ==>
      Phase(t[i]).value <= Phase(t[j]).value
  }

  lemma PhasedAppend(a: seq<Command>, b: seq<Command>, mid: nat)
    requires Phased(a) && Phased(b) && Within(a, 0, mid) && Within(b, mid, 6)
    ensures Phased(a + b)
  {
    var t := a + b;
    forall i, j | 0 <= i < j < |t| && Phase(t[i]).Some? && Phase(t[j]).Some?
      ensures Phase(t[i]).value <= Phase(t[j]).value
    {
      if j < |a| {
        assert t[i] == a[i] && t[j] == a[j];
      } else if i < |a| {
        assert t[i] == a[i] && a[i] in a;
        assert t[j] == b[j - |a|] && b[j - |a|] in b;
      } else {
        assert t[i] == b[i - |a|] && t[j] == b[j - |a|];
      }
    }
  }

  lemma ConfigureSegment(p: SetupParams)
    ensures Within(ListenerCommands(p) + ConfigureCommands(p), 0, 0)
    ensures forall e :: SetControlEncoding(e) in ListenerCommands(p) + ConfigureCommands(p) <==> p.encoding == Some(e)
    ensures NoListenerCommand(ConfigureCommands(p))
  {
  }

  lemma ConnectSegment(p: SetupParams)
    ensures Within(ConnectCommands(p), 1, 3)
    ensures NoListenerCommand(ConnectCommands(p))
    ensures EnterLocalActiveMode in ConnectCommands(p) <==> p.useActiveData
    ensures EnterLocalPassiveMode in ConnectCommands(p) <==> !p.useActiveData
  {
  }

  lemma LoginSegment(p: SetupParams)
    ensures Within(LoginCommands(p), 4, 4)
  {
  }

  lemma RootSegment(p: SetupParams)
    ensures Within(RootCwdCommands(p) + RootPwdCommands(p), 5, 6)
    ensures NoListenerCommand(RootCwdCommands(p) + RootPwdCommands(p))
    ensures forall d :: ChangeWorkingDirectory(d) in RootCwdCommands(p) + RootPwdCommands(p) <==> !IsBlank(p.root) && d == p.root.value
    ensures PrintWorkingDirectory in RootCwdCommands(p) + RootPwdCommands(p) <==> !IsDirAbsolute(p.root)
  {
  }

  /** Each segment on its own is in phase order. */
  lemma SegmentsPhased(p: SetupParams)
    ensures Phased(ListenerCommands(p) + ConfigureCommands(p))
    ensures Phased(ConnectCommands(p))
    ensures Phased(LoginCommands(p))
    ensures Phased(RootCwdCommands(p) + RootPwdCommands(p))
  {
  }

  /** The plan configures timeouts and encoding before connecting, reads the
      greeting before choosing the data mode, chooses it before logging in,
      and touches directories only after the login, CWD before PWD. */
  lemma SetupPlanIsOrdered(p: SetupParams)
    ensures Phased(SetupPlan(p))
  {
    var a := ListenerCommands(p) + ConfigureCommands(p);
    var b := ConnectCommands(p);
    var c := LoginCommands(p);
    var d := RootCwdCommands(p) + RootPwdCommands(p);
    SegmentsPhased(p);
    ConfigureSegment(p);
    ConnectSegment(p);
    LoginSegment(p);
    RootSegment(p);
    PhasedAppend(c, d, 4);
    assert Within(c + d, 4, 6);
    PhasedAppend(b, c + d, 3);
    assert Within(b + (c + d), 1, 6);
    PhasedAppend(a, b + (c + d), 0);
    Appended(a + b + c, RootCwdCommands(p), RootPwdCommands(p));
    Appended(a + b, c, d);
    Appended(a, b, c + d);
  }

  lemma LoginOnlyAt(pre: seq<Command>, x: Command, post: seq<Command>)
    requires forall c :: c in pre ==> !c.Login?
    requires forall c :: c in post ==> !c.Login?
    ensures forall i :: 0 <= i < |pre + [x] + post| && (pre + [x] + post)[i].Login? ==>
      i == |pre| && (pre + [x] + post)[..i] == pre
  {
    var t := pre + [x] + post;
    forall i | 0 <= i < |t| && t[i].Login?
      ensures i == |pre| && t[..i] == pre
    {
      assert t[..i] == pre;
    }
  }

  /** The calls before the login and after it. */
  function BeforeLogin(p: SetupParams): seq<Command> {
    ListenerCommands(p) + ConfigureCommands(p) + ConnectCommands(p) +
    (if p.verbose then [RemoveProtocolCommandListener] else [])
  }

  function AfterLogin(p: SetupParams): seq<Command> {
    ListenerCommands(p) + RootCwdCommands(p) + RootPwdCommands(p)
  }

  lemma SplitAtLogin(p: SetupParams)
    ensures SetupPlan(p) == BeforeLogin(p) + [Login(p.username, p.password)] + AfterLogin(p)
  {
  }

  lemma NoOtherLogin(p: SetupParams)
    ensures forall c :: c in BeforeLogin(p) ==> !c.Login?
    ensures forall c :: c in AfterLogin(p) ==> !c.Login?
  {
    ConfigureSegment(p);
    ConnectSegment(p);
    RootSegment(p);
  }

  lemma DetachedBeforeLogin(p: SetupParams)
    ensures !Attached(BeforeLogin(p))
  {
    if !p.verbose {
      ConfigureSegment(p);
      ConnectSegment(p);
      assert BeforeLogin(p) == ConfigureCommands(p) + ConnectCommands(p);
      NoListenerNotAttached(BeforeLogin(p));
    }
  }

  lemma AttachedAfterSetup(p: SetupParams)
    ensures Attached(SetupPlan(p)) == p.verbose
  {
    var x := Login(p.username, p.password);
    var root := RootCwdCommands(p) + RootPwdCommands(p);
    var upTo := BeforeLogin(p) + [x] + ListenerCommands(p);
    RootSegment(p);
    assert SetupPlan(p) == upTo + root;
    AttachedAppend(upTo, root);
    if !p.verbose {
      QuietSessionHasNoListener(p);
    }
  }

  lemma QuietSessionHasNoListener(p: SetupParams)
    requires !p.verbose
    ensures !Attached(BeforeLogin(p) + [Login(p.username, p.password)] + ListenerCommands(p))
  {
    ConfigureSegment(p);
    ConnectSegment(p);
    var t := ConfigureCommands(p) + ConnectCommands(p) + [Login(p.username, p.password)];
    assert BeforeLogin(p) + [Login(p.username, p.password)] + ListenerCommands(p) == t;
    NoListenerNotAttached(t);
  }

  /** The login is the one call made with the command listener detached
      (so the password never reaches the build log); a verbose session gets
      the listener back afterwards, a quiet one never has it. */
  lemma ListenerDetachedAtLogin(p: SetupParams)
    ensures forall i :: 0 <= i < |SetupPlan(p)| && SetupPlan(p)[i].Login? ==> !Attached(SetupPlan(p)[..i])
    ensures Attached(SetupPlan(p)) == p.verbose
  {
    SplitAtLogin(p);
    NoOtherLogin(p);
    DetachedBeforeLogin(p);
    AttachedAfterSetup(p);
    LoginOnlyAt(BeforeLogin(p), Login(p.username, p.password), AfterLogin(p));
  }

  /** The login stage, from a trace whose listener state matches the build:
      a bare attempt leaves the listener off, a successful login puts a
      verbose build's listener back. */
  lemma LoginListener(t: seq<Command>, p: SetupParams)
    requires Attached(t) == p.verbose
    ensures !Attached(t + LoginAttempt(p))
    ensures Attached(t + LoginCommands(p)) == p.verbose
  {
    var off := if p.verbose then [RemoveProtocolCommandListener] else [];
    var x := Login(p.username, p.password);
    assert LoginAttempt(p) == off + [x];
    assert t + LoginAttempt(p) == t + off + [x];
    if p.verbose {
      assert (t + off)[|t + off| - 1] == RemoveProtocolCommandListener;
      assert (t + LoginCommands(p))[|t + LoginCommands(p)| - 1] == AddProtocolCommandListener;
    } else {
      assert t + off == t;
      assert t + LoginCommands(p) == t + off + [x];
    }
    AttachedAppend(t + off, [x]);
  }

  /** After a setup, whatever the server answered, the listener is attached
      exactly for a verbose build whose session either stopped before the
      login or got through it: a refused or failed login leaves it off. */
  lemma ListenerAfterSetup(p: SetupParams, s: Script, here: Folder)
    ensures Attached(RunSetup(p, s, here).issued) <==>
      p.verbose && (ConnectStage(p, s).outcome.Abort? || LoginStage(p, s).outcome.Done?)
  {
    var pre := ListenerCommands(p) + ConfigureCommands(p);
    ConfigureSegment(p);
    AttachedAppend(ListenerCommands(p), ConfigureCommands(p));
    assert Attached(ListenerCommands(p)) == p.verbose;
    ListenerAfterConnect(p, s, here, pre);
  }

  /** The listener across `ConnectRun`, from a trace whose listener state
      matches the build. */
  lemma ListenerAfterConnect(p: SetupParams, s: Script, here: Folder, t: seq<Command>)
    requires Attached(t) == p.verbose
    ensures Attached(t + ConnectRun(p, s, here).issued) <==>
      p.verbose && (ConnectStage(p, s).outcome.Abort? || LoginStage(p, s).outcome.Done?)
  {
    var connect := ConnectStage(p, s);
    ConnectSegment(p);
    assert forall c :: c in connect.issued ==> c in ConnectCommands(p);
    AttachedAppend(t, connect.issued);
    if connect.outcome.Done? {
      ListenerAfterLogin(p, s, here, t + connect.issued);
      Appended(t, connect.issued, LoginRun(p, s, here).issued);
    }
  }

  /** The listener across `LoginRun`: on only after an accepted login of a
      verbose build. */
  lemma ListenerAfterLogin(p: SetupParams, s: Script, here: Folder, u: seq<Command>)
    requires Attached(u) == p.verbose
    ensures Attached(u + LoginRun(p, s, here).issued) == (p.verbose && LoginStage(p, s).outcome.Done?)
  {
    LoginListener(u, p);
    if LoginStage(p, s).outcome.Done? {
      RootListener(p, s, here, u + LoginCommands(p));
      Appended(u, LoginCommands(p), RootRun(p, s, here).issued);
    }
  }

  /** The listener across `RootRun`: untouched. */
  lemma RootListener(p: SetupParams, s: Script, here: Folder, u: seq<Command>)
    ensures Attached(u + RootRun(p, s, here).issued) == Attached(u)
  {
    RootSegment(p);
    assert forall c :: c in RootRun(p, s, here).issued ==> c in RootCwdCommands(p) + RootPwdCommands(p);
    AttachedAppend(u, RootRun(p, s, here).issued);
  }

  /** A call is in the plan exactly when one of its segments holds it. */
  lemma PlanMembership(p: SetupParams, c: Command)
    ensures c in SetupPlan(p) <==>
      c in ListenerCommands(p) || c in ConfigureCommands(p) || c in ConnectCommands(p) ||
      c in LoginCommands(p) || c in RootCwdCommands(p) || c in RootPwdCommands(p)
  {
  }

  /** The only login of a setup sends the session's own credentials. */
  lemma LoginInPlan(p: SetupParams)
    ensures forall u, pw :: Login(u, pw) in SetupPlan(p) <==> u == p.username && pw == p.password
  {
    forall u, pw
      ensures Login(u, pw) in SetupPlan(p) <==> u == p.username && pw == p.password
    {
      var x := Login(u, pw);
      PlanMembership(p, x);
      assert x in LoginCommands(p) <==> x in LoginAttempt(p);
    }
  }

  /** The only connection of a setup goes to the session's host and port. */
  lemma ConnectInPlan(p: SetupParams)
    ensures forall h, n :: Connect(h, n) in SetupPlan(p) <==> h == p.host && n == p.port
  {
    forall h, n
      ensures Connect(h, n) in SetupPlan(p) <==> h == p.host && n == p.port
    {
      PlanMembership(p, Connect(h, n));
    }
  }

  /** The root is entered exactly when it is not blank, with the value as
      written; the server's working directory is asked for exactly when the
      root is not absolute. */
  lemma RootCommandsFollowRoot(p: SetupParams)
    ensures forall d :: ChangeWorkingDirectory(d) in SetupPlan(p) <==> !IsBlank(p.root) && d == p.root.value
    ensures PrintWorkingDirectory in SetupPlan(p) <==> !IsDirAbsolute(p.root)
  {
    forall d
      ensures ChangeWorkingDirectory(d) in SetupPlan(p) <==> !IsBlank(p.root) && d == p.root.value
    {
      PlanMembership(p, ChangeWorkingDirectory(d));
    }
    PlanMembership(p, PrintWorkingDirectory);
  }

  /** The control encoding is set exactly when one is configured, and the
      data mode is the configured one. */
  lemma ClientSettingsFollowConfiguration(p: SetupParams)
    ensures forall e :: SetControlEncoding(e) in SetupPlan(p) <==> p.encoding == Some(e)
    ensures EnterLocalActiveMode in SetupPlan(p) <==> p.useActiveData
    ensures EnterLocalPassiveMode in SetupPlan(p) <==> !p.useActiveData
  {
    forall e
      ensures SetControlEncoding(e) in SetupPlan(p) <==> p.encoding == Some(e)
    {
      PlanMembership(p, SetControlEncoding(e));
    }
    PlanMembership(p, EnterLocalActiveMode);
    PlanMembership(p, EnterLocalPassiveMode);
  }
}
