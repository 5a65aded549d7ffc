/**
 * The current host configuration (jenkins.plugins.publish_over_ftp
 * BapFtpHostConfiguration): the configured values of one FTP server and
 * the opening of a session on it.  Compared with the other configurations
 * it trims the host name, can send a control encoding, lets the build
 * override the credentials, passes its nested-directory setting to the
 * client and names the exception's class when it cannot open a session.
 */
module FtpHostConfiguration {
  import opened Ftp
  import opened PublishOver
  import opened Text
  import opened SessionPlan
  import Setup
  import Client

  /** An IOException escaping init, reported with its class name and
      message and kept as the cause; every other failure escapes as it is. */
  function CreateFailure(e: Error): Error {
    match e
    case Thrown(x) => Wrap(x, FailedToCreateClient(x.className + ": " + x.message))
    case BapPublisherException(_, _) => e
  }

  class BapFtpHostConfiguration {
    const name: string
    const hostname: string
    const username: string
    const password: string
    const remoteRootDir: Option<string>
    const port: int
    var timeout: int
    var useActiveData: bool
    /** Never blank, and without leading or trailing blanks. */
    const controlEncoding: Option<string>
    const disableMakeNestedDirs: bool

    constructor (name: string, hostname: string, username: string, password: string,
                 remoteRootDir: Option<string>, port: int, timeout: int, useActiveData: bool,
                 controlEncoding: Option<string>, disableMakeNestedDirs: bool)
      ensures this.name == name && this.hostname == hostname
      ensures this.username == username && this.password == password
      ensures this.remoteRootDir == remoteRootDir && this.port == port
      ensures this.timeout == timeout && this.useActiveData == useActiveData
      ensures this.controlEncoding == FixEmptyAndTrim(controlEncoding)
      ensures this.disableMakeNestedDirs == disableMakeNestedDirs
    {
      this.name := name;
      this.hostname := hostname;
      this.username := username;
      this.password := password;
      this.remoteRootDir := remoteRootDir;
      this.port := port;
      this.timeout := timeout;
      this.useActiveData := useActiveData;
      this.controlEncoding := FixEmptyAndTrim(controlEncoding);
      this.disableMakeNestedDirs := disableMakeNestedDirs;
    }

    method SetTimeout(timeout: int)
      modifies this`timeout
      ensures this.timeout == timeout
    {
      this.timeout := timeout;
    }

    method SetUseActiveData(useActiveData: bool)
      modifies this`useActiveData
      ensures this.useActiveData == useActiveData
    {
      this.useActiveData := useActiveData;
    }

    /** The credentials of a build: its override replaces both the user
        name and the password. */
    function LoginCredentials(info: BuildInfo): Credentials {
      match info.overrideCredentials
      case Some(c) => c
      case None => Credentials(username, password)
    }

    /** How this configuration opens a session for a build. */
    function Params(info: BuildInfo): SetupParams
      reads this
    {
      var login := LoginCredentials(info);
      SetupParams(info.verbose, timeout, controlEncoding, Trim(hostname), port, useActiveData,
                  login.username, login.password, remoteRootDir)
    }

    /** init: the client's nested-directory setting, then the session; the
        absolute remote root is recorded only once the session is open. */
    method Init(client: Client.BapFtpClient) returns (o: Outcome)
      requires client.ftp != null && !client.ftp.listenerAttached
      modifies client`disableMakeNestedDirs, client`absoluteRemoteRoot
      modifies client.ftp`trace, client.ftp`connected, client.ftp`listenerAttached, client.ftp`mode
      modifies client.ftp`here, client.ftp`above
      ensures var run := RunSetup(Params(client.buildInfo), client.ftp.script, old(client.ftp.here));
        && client.ftp.trace == old(client.ftp.trace) + run.issued
        && (o.Done? <==> run.outcome.Ok?)
        && (o.Abort? ==> o.error == run.outcome.error && client.absoluteRemoteRoot == old(client.absoluteRemoteRoot))
        && (o.Done? ==> client.absoluteRemoteRoot == Some(run.outcome.value))
      ensures client.disableMakeNestedDirs == disableMakeNestedDirs
      ensures o.Done? ==> client.ftp.connected && client.ftp.mode == (if useActiveData then Active else Passive)
      ensures (client.ftp.here, client.ftp.above) ==
        SetupCursor(Params(client.buildInfo), client.ftp.script, old(client.ftp.here), old(client.ftp.above))
    {
      client.SetDisableMakeNestedDirs(disableMakeNestedDirs);
      var ftp, p := client.ftp, Params(client.buildInfo);
      assert ftp.trace == old(ftp.trace) && ftp.here == old(ftp.here);
      var root := Setup.Open(ftp, p);
      if root.Err? {
        return Abort(root.error);
      }
      client.SetAbsoluteRemoteRoot(Some(root.value));
      o := Done;
    }

    /** createClient, on the fresh FTP endpoint `server`: a client whose
        session is open at its absolute remote root, or the failure. */
    method CreateClient(server: FtpServer, info: BuildInfo) returns (r: Result<Client.BapFtpClient>)
      requires !server.listenerAttached
      modifies server`trace, server`connected, server`listenerAttached, server`mode, server`here, server`above
      ensures var run := RunSetup(Params(info), server.script, old(server.here));
        && server.trace == old(server.trace) + run.issued
        && (r.Ok? <==> run.outcome.Ok?)
        && (r.Err? ==> r.error == CreateFailure(run.outcome.error))
        && (r.Ok? ==> fresh(r.value) && r.value.absoluteRemoteRoot == Some(run.outcome.value))
      ensures r.Ok? ==> r.value.ftp == server && r.value.buildInfo == info
      ensures r.Ok? ==> r.value.disableMakeNestedDirs == disableMakeNestedDirs
      ensures r.Ok? ==> server.connected && server.mode == (if useActiveData then Active else Passive)
      ensures (server.here, server.above) == SetupCursor(Params(info), server.script, old(server.here), old(server.above))
    {
      var client := new Client.BapFtpClient(server, info);
      var o := Init(client);
      if o.Abort? {
        return Err(CreateFailure(o.error));
      }
      r := Ok(client);
    }
  }

  /** A build's override credentials are the ones sent, both of them, and
      the ones a refusal names. */
  lemma OverrideCredentialsLogIn(c: BapFtpHostConfiguration, info: BuildInfo, s: Script, here: Folder)
    requires info.overrideCredentials.Some?
    ensures var o := info.overrideCredentials.value;
      forall u, pw :: Login(u, pw) in SetupPlan(c.Params(info)) <==> u == o.username && pw == o.password
    ensures var o := info.overrideCredentials.value;
      s.connectFault.None? && IsPositiveCompletion(s.replyCode) && LoginReply(s, o.username, o.password) == Value(false) ==>
      RunSetup(c.Params(info), s, here).outcome == Err(BapPublisherException(LogInFailed(o.username), None))
  {
    var p := c.Params(info);
    LoginInPlan(p);
    var o := info.overrideCredentials.value;
    if s.connectFault.None? && IsPositiveCompletion(s.replyCode) && LoginReply(s, o.username, o.password) == Value(false) {
      LoginRefusedLeavesListenerDetached(p, s, here);
    }
  }

  /** The control encoding is sent exactly when one was configured that is
      not blank, and then without its surrounding blanks. */
  lemma EncodingSentIffConfigured(raw: Option<string>, c: BapFtpHostConfiguration, info: BuildInfo)
    requires c.controlEncoding == FixEmptyAndTrim(raw)
    ensures forall e :: SetControlEncoding(e) in SetupPlan(c.Params(info)) <==> !IsBlank(raw) && e == Trim(raw.value)
  {
    ClientSettingsFollowConfiguration(c.Params(info));
  }

  /** The host connected to is the configured one without surrounding
      blanks. */
  lemma ConnectsToTrimmedHost(c: BapFtpHostConfiguration, info: BuildInfo)
    ensures forall h, n :: Connect(h, n) in SetupPlan(c.Params(info)) <==> h == Trim(c.hostname) && n == c.port
  {
    ConnectInPlan(c.Params(info));
  }
}
