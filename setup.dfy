/**
 * The stages of opening a session, as methods on the FTP endpoint.  Every
 * host configuration runs them in the same order; each method is proved
 * against the matching stage of `SessionPlan`, and `Open` against the
 * whole `RunSetup`.
 */
module Setup {
  import opened Ftp
  import opened PublishOver
  import opened Text
  import opened SessionPlan

  /** configureFTPClient: the timeouts, then the control encoding when one
      is configured. */
  method Configure(ftp: FtpServer, p: SetupParams)
    modifies ftp`trace
    ensures ftp.trace == old(ftp.trace) + ConfigureCommands(p)
  {
    ftp.SetDefaultTimeout(p.timeout);
    ftp.SetDataTimeout(p.timeout);
    if p.encoding.Some? {
      ftp.SetControlEncoding(p.encoding.value);
    }
  }

  /** setDataTransferMode: active or passive, as configured. */
  method SetDataTransferMode(ftp: FtpServer, useActiveData: bool)
    modifies ftp`trace, ftp`mode
    ensures ftp.trace == old(ftp.trace) + [ModeCommand(useActiveData)]
    ensures ftp.mode == if useActiveData then Active else Passive
  {
    if useActiveData {
      ftp.EnterLocalActiveMode();
    } else {
      ftp.EnterLocalPassiveMode();
    }
  }

  /** connect: only a positive completion in the greeting's reply code lets
      the session go on, and only then is the data mode chosen. */
  method Connect(ftp: FtpServer, p: SetupParams) returns (o: Outcome)
    modifies ftp`trace, ftp`connected, ftp`mode
    ensures ftp.trace == old(ftp.trace) + ConnectStage(p, ftp.script).issued
    ensures o == ConnectStage(p, ftp.script).outcome
    ensures o.Done? <==> ftp.script.connectFault.None? && IsPositiveCompletion(ftp.script.replyCode)
    ensures ftp.connected == (old(ftp.connected) || ftp.script.connectFault.None?)
    ensures ftp.mode == if o.Done? then (if p.useActiveData then Active else Passive) else old(ftp.mode)
  {
    var fault := ftp.Connect(p.host, p.port);
    if fault.Some? {
      return Abort(Thrown(fault.value));
    }
    var code := ftp.GetReplyCode();
    if !IsPositiveCompletion(code) {
      return Abort(BapPublisherException(ConnectFailed(p.host, p.port, code), None));
    }
    SetDataTransferMode(ftp, p.useActiveData);
    o := Done;
  }

  /** login: a listener attached for a verbose build is detached while the
      credentials go out and attached again only after they are accepted. */
  method Login(ftp: FtpServer, p: SetupParams) returns (o: Outcome)
    requires ftp.listenerAttached == p.verbose
    modifies ftp`trace, ftp`listenerAttached
    ensures ftp.trace == old(ftp.trace) + LoginStage(p, ftp.script).issued
    ensures o == LoginStage(p, ftp.script).outcome
    ensures o.Done? <==> LoginReply(ftp.script, p.username, p.password) == Value(true)
    ensures ftp.listenerAttached == (p.verbose && o.Done?)
  {
    if p.verbose {
      ftp.RemoveProtocolCommandListener();
    }
    var accepted := ftp.Login(p.username, p.password);
    match accepted
    case Raise(x) =>
      o := Abort(Thrown(x));
    case Value(ok) =>
      if !ok {
        return Abort(BapPublisherException(LogInFailed(p.username), None));
      }
      if p.verbose {
        ftp.AddProtocolCommandListener();
      }
      o := Done;
  }

  /** changeToRootDirectory: a root that is not blank is entered exactly as
      configured, and a refusal ends the session. */
  method ChangeToRootDirectory(ftp: FtpServer, p: SetupParams) returns (o: Outcome)
    modifies ftp`trace, ftp`here, ftp`above
    ensures ftp.trace == old(ftp.trace) + RootCwdStage(p, ftp.script, old(ftp.here)).issued
    ensures o == RootCwdStage(p, ftp.script, old(ftp.here)).outcome
    ensures o.Done? <==> IsBlank(p.root) || CwdReply(old(ftp.here), ftp.script.paths, p.root.value) == Value(true)
    ensures (ftp.here, ftp.above) ==
      if !IsBlank(p.root) && o.Done? then CwdMove(old(ftp.here), old(ftp.above), ftp.script.paths, p.root.value)
      else (old(ftp.here), old(ftp.above))
    ensures (ftp.here, ftp.above) == RootCursor(p, ftp.script, old(ftp.here), old(ftp.above))
  {
    if IsBlank(p.root) {
      return Done;
    }
    var dir := p.root.value;
    var entered := ftp.ChangeWorkingDirectory(dir);
    match entered
    case Raise(x) =>
      o := Abort(Wrap(x, CwdException(dir)));
    case Value(ok) =>
      if ok {
        o := Done;
      } else {
        o := Abort(BapPublisherException(CwdRemoteRoot(dir), None));
      }
  }

  /** getRootDirectoryFromPwd: the server's working directory, which must
      be absolute. */
  method GetRootDirectoryFromPwd(ftp: FtpServer) returns (r: Result<string>)
    modifies ftp`trace
    ensures ftp.trace == old(ftp.trace) + [PrintWorkingDirectory]
    ensures r.Ok? <==> ftp.script.pwd.Value? && IsDirAbsolute(ftp.script.pwd.value)
    ensures r.Ok? ==> ftp.script.pwd.value == Some(r.value)
    ensures r.Err? ==> r.error == match ftp.script.pwd
      case Raise(x) => Thrown(x)
      case Value(pwd) => BapPublisherException(PwdNotAbsolute(pwd), None)
  {
    var pwd := ftp.PrintWorkingDirectory();
    match pwd
    case Raise(x) =>
      r := Err(Thrown(x));
    case Value(d) =>
      if IsDirAbsolute(d) {
        r := Ok(d.value);
      } else {
        r := Err(BapPublisherException(PwdNotAbsolute(d), None));
      }
  }

  /** setRootDirectoryInClient: the configured root when it is absolute,
      otherwise the server's working directory. */
  method RootDirectory(ftp: FtpServer, p: SetupParams) returns (r: Result<string>)
    modifies ftp`trace
    ensures ftp.trace == old(ftp.trace) + RootStage(p, ftp.script).issued
    ensures r == RootStage(p, ftp.script).outcome
    ensures r.Ok? ==> IsDirAbsolute(Some(r.value))
    ensures IsDirAbsolute(p.root) ==> r == Ok(p.root.value)
  {
    if IsDirAbsolute(p.root) {
      return Ok(p.root.value);
    }
    r := GetRootDirectoryFromPwd(ftp);
  }

  /** The end of init: enter the configured root, then settle the
      absolute remote root. */
  method EnterRoot(ftp: FtpServer, p: SetupParams) returns (r: Result<string>)
    modifies ftp`trace, ftp`here, ftp`above
    ensures ftp.trace == old(ftp.trace) + RootRun(p, ftp.script, old(ftp.here)).issued
    ensures r == RootRun(p, ftp.script, old(ftp.here)).outcome
    ensures (ftp.here, ftp.above) == RootCursor(p, ftp.script, old(ftp.here), old(ftp.above))
  {
    var o := ChangeToRootDirectory(ftp, p);
    if o.Abort? {
      return Err(o.error);
    }
    r := RootDirectory(ftp, p);
  }

  /** init once connected: log in, then `EnterRoot`. */
  method LogInAndEnterRoot(ftp: FtpServer, p: SetupParams) returns (r: Result<string>)
    requires ftp.listenerAttached == p.verbose
    modifies ftp`trace, ftp`listenerAttached, ftp`here, ftp`above
    ensures ftp.trace == old(ftp.trace) + LoginRun(p, ftp.script, old(ftp.here)).issued
    ensures r == LoginRun(p, ftp.script, old(ftp.here)).outcome
    ensures ftp.listenerAttached == (p.verbose && LoginStage(p, ftp.script).outcome.Done?)
    ensures (ftp.here, ftp.above) ==
      if LoginStage(p, ftp.script).outcome.Done? then RootCursor(p, ftp.script, old(ftp.here), old(ftp.above))
      else (old(ftp.here), old(ftp.above))
  {
    ghost var before := ftp.trace;
    var o := Login(ftp, p);
    if o.Abort? {
      return Err(o.error);
    }
    r := EnterRoot(ftp, p);
    Appended(before, LoginStage(p, ftp.script).issued, RootRun(p, ftp.script, old(ftp.here)).issued);
  }

  /** init once configured: connect, then `LogInAndEnterRoot`. */
  method ConnectAndLogIn(ftp: FtpServer, p: SetupParams) returns (r: Result<string>)
    requires ftp.listenerAttached == p.verbose
    modifies ftp`trace, ftp`connected, ftp`listenerAttached, ftp`mode, ftp`here, ftp`above
    ensures ftp.trace == old(ftp.trace) + ConnectRun(p, ftp.script, old(ftp.here)).issued
    ensures r == ConnectRun(p, ftp.script, old(ftp.here)).outcome
    ensures ftp.listenerAttached ==
      (p.verbose && (ConnectStage(p, ftp.script).outcome.Abort? || LoginStage(p, ftp.script).outcome.Done?))
    ensures r.Ok? ==> ftp.connected && ftp.mode == (if p.useActiveData then Active else Passive)
    ensures (ftp.here, ftp.above) == SetupCursor(p, ftp.script, old(ftp.here), old(ftp.above))
  {
    ghost var before := ftp.trace;
    var o := Connect(ftp, p);
    if o.Abort? {
      return Err(o.error);
    }
    r := LogInAndEnterRoot(ftp, p);
    Appended(before, ConnectStage(p, ftp.script).issued, LoginRun(p, ftp.script, old(ftp.here)).issued);
  }

  /** init, after the client's own settings: attach the listener for a
      verbose build, configure, connect, log in, enter the configured root
      and settle the absolute remote root, stopping at the first failure. */
  method Open(ftp: FtpServer, p: SetupParams) returns (r: Result<string>)
    requires !ftp.listenerAttached
    modifies ftp`trace, ftp`connected, ftp`listenerAttached, ftp`mode, ftp`here, ftp`above
    ensures ftp.trace == old(ftp.trace) + RunSetup(p, ftp.script, old(ftp.here)).issued
    ensures r == RunSetup(p, ftp.script, old(ftp.here)).outcome
    ensures ftp.listenerAttached ==
      (p.verbose && (ConnectStage(p, ftp.script).outcome.Abort? || LoginStage(p, ftp.script).outcome.Done?))
    ensures r.Ok? ==> ftp.connected && ftp.mode == (if p.useActiveData then Active else Passive)
    ensures (ftp.here, ftp.above) == SetupCursor(p, ftp.script, old(ftp.here), old(ftp.above))
  {
    ghost var base := ftp.trace;
    if p.verbose {
      ftp.AddProtocolCommandListener();
    } else {
      assert ftp.trace == base + [];
    }
    Configure(ftp, p);
    Appended(base, ListenerCommands(p), ConfigureCommands(p));
    r := ConnectAndLogIn(ftp, p);
    Appended(base, ListenerCommands(p) + ConfigureCommands(p), ConnectRun(p, ftp.script, old(ftp.here)).issued);
  }
}
