/**
 * The plain host configuration of the current package
 * (jenkins.plugins.publish_over_ftp BapHostConfiguration): it has no
 * control encoding and no nested-directory setting, sends the host name as
 * configured, always logs in with the configured credentials and reports
 * only the exception's message when it cannot open a session.
 */
module HostConfiguration {
  import opened Ftp
  import opened PublishOver
  import opened SessionPlan
  import Setup
  import Client

  /** An IOException escaping init, reported with its message and kept as
      the cause; every other failure escapes as it is. */
  function CreateFailure(e: Error): Error {
    match e
    case Thrown(x) => Wrap(x, FailedToCreateClient(x.message))
    case BapPublisherException(_, _) => e
  }

  class BapHostConfiguration {
    const name: string
    const hostname: string
    const username: string
    const password: string
    const remoteRootDir: Option<string>
    const port: int
    var timeout: int
    var useActiveData: bool

    constructor (name: string, hostname: string, username: string, password: string,
                 remoteRootDir: Option<string>, port: int, timeout: int, useActiveData: bool)
      ensures this.name == name && this.hostname == hostname
      ensures this.username == username && this.password == password
      ensures this.remoteRootDir == remoteRootDir && this.port == port
      ensures this.timeout == timeout && this.useActiveData == useActiveData
    {
      this.name := name;
      this.hostname := hostname;
      this.username := username;
      this.password := password;
      this.remoteRootDir := remoteRootDir;
      this.port := port;
      this.timeout := timeout;
      this.useActiveData := useActiveData;
    }

    method SetTimeout(timeout: int)
      modifies this`timeout
      ensures this.timeout == timeout
    {
      this.timeout := timeout;
    }

    method SetUseActiveData(useActiveData: bool)
      modifies this`useActiveData
      ensures this.useActiveData == useActiveData
    {
      this.useActiveData := useActiveData;
    }

    /** How this configuration opens a session for a build: no control
        encoding, the host name as configured, the configured credentials. */
    function Params(info: BuildInfo): SetupParams
      reads this
    {
      SetupParams(info.verbose, timeout, None, hostname, port, useActiveData, username, password, remoteRootDir)
    }

    /** init: the session; the absolute remote root is recorded only once
        the session is open. */
    method Init(client: Client.BapFtpClient) returns (o: Outcome)
      requires client.ftp != null && !client.ftp.listenerAttached
      modifies client`absoluteRemoteRoot
      modifies client.ftp`trace, client.ftp`connected, client.ftp`listenerAttached, client.ftp`mode
      modifies client.ftp`here, client.ftp`above
      ensures var run := RunSetup(Params(client.buildInfo), client.ftp.script, old(client.ftp.here));
        && client.ftp.trace == old(client.ftp.trace) + run.issued
        && (o.Done? <==> run.outcome.Ok?)
        && (o.Abort? ==> o.error == run.outcome.error && client.absoluteRemoteRoot == old(client.absoluteRemoteRoot))
        && (o.Done? ==> client.absoluteRemoteRoot == Some(run.outcome.value))
      ensures o.Done? ==> client.ftp.connected && client.ftp.mode == (if useActiveData then Active else Passive)
      ensures (client.ftp.here, client.ftp.above) ==
        SetupCursor(Params(client.buildInfo), client.ftp.script, old(client.ftp.here), old(client.ftp.above))
    {
      var root := Setup.Open(client.ftp, Params(client.buildInfo));
      if root.Err? {
        return Abort(root.error);
      }
      client.SetAbsoluteRemoteRoot(Some(root.value));
      o := Done;
    }

    /** createClient, on the fresh FTP endpoint `server`: a client whose
        session is open at its absolute remote root, or the failure. */
    method CreateClient(server: FtpServer, info: BuildInfo) returns (r: Result<Client.BapFtpClient>)
      requires !server.listenerAttached
      modifies server`trace, server`connected, server`listenerAttached, server`mode, server`here, server`above
      ensures var run := RunSetup(Params(info), server.script, old(server.here));
        && server.trace == old(server.trace) + run.issued
        && (r.Ok? <==> run.outcome.Ok?)
        && (r.Err? ==> r.error == CreateFailure(run.outcome.error))
        && (r.Ok? ==> fresh(r.value) && r.value.absoluteRemoteRoot == Some(run.outcome.value))
      ensures r.Ok? ==> r.value.ftp == server && r.value.buildInfo == info && !r.value.disableMakeNestedDirs
      ensures r.Ok? ==> server.connected && server.mode == (if useActiveData then Active else Passive)
      ensures (server.here, server.above) == SetupCursor(Params(info), server.script, old(server.here), old(server.above))
    {
      var client := new Client.BapFtpClient(server, info);
      var o := Init(client);
      if o.Abort? {
        return Err(CreateFailure(o.error));
      }
      r := Ok(client);
    }
  }

  /** Whatever the build says, the configured credentials are the ones sent. */
  lemma ConfiguredCredentialsLogIn(c: BapHostConfiguration, info: BuildInfo)
    ensures forall u, pw :: Login(u, pw) in SetupPlan(c.Params(info)) <==> u == c.username && pw == c.password
  {
    LoginInPlan(c.Params(info));
  }

  /** No control encoding is ever sent. */
  lemma NoControlEncoding(c: BapHostConfiguration, info: BuildInfo)
    ensures forall e :: SetControlEncoding(e) !in SetupPlan(c.Params(info))
  {
    ClientSettingsFollowConfiguration(c.Params(info));
  }
}
