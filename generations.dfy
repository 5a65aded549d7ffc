/**
 * How the three host configurations relate.  They share one way of opening
 * a session and differ only in what they derive from their configured
 * values and the build, and in how they report a failure to open one.
 */
module Generations {
  import opened Ftp
  import opened PublishOver
  import opened Text
  import opened SessionPlan
  import FtpHostConfiguration
  import HostConfiguration
  import LegacyHostConfiguration

  /** The legacy configuration and the plain current one, given the same
      values, open the same session for every build. */
  lemma LegacyOpensLikePlain(legacy: LegacyHostConfiguration.BapFtpHostConfiguration,
                             plain: HostConfiguration.BapHostConfiguration, info: BuildInfo, s: Script, here: Folder)
    requires legacy.hostname == plain.hostname && legacy.port == plain.port
    requires legacy.username == plain.username && legacy.password == plain.password
    requires legacy.remoteRootDir == plain.remoteRootDir
    requires legacy.timeOut == plain.timeout && legacy.useActiveData == plain.useActiveData
    ensures RunSetup(legacy.Params(info), s, here) == RunSetup(plain.Params(info), s, here)
  {
  }

  /** The current configuration opens the same session as the plain one
      when its host name has no surrounding blanks, it has no control
      encoding and the build overrides no credentials. */
  lemma CurrentOpensLikePlain(current: FtpHostConfiguration.BapFtpHostConfiguration,
                              plain: HostConfiguration.BapHostConfiguration, info: BuildInfo, s: Script, here: Folder)
    requires current.hostname == plain.hostname && current.port == plain.port
    requires current.username == plain.username && current.password == plain.password
    requires current.remoteRootDir == plain.remoteRootDir
    requires current.timeout == plain.timeout && current.useActiveData == plain.useActiveData
    requires Trim(current.hostname) == current.hostname
    requires current.controlEncoding.None? && info.overrideCredentials.None?
    ensures RunSetup(current.Params(info), s, here) == RunSetup(plain.Params(info), s, here)
  {
  }

  /** A host name written with a blank around it is sent trimmed by the
      current configuration and as it is by the others. */
  lemma OnlyCurrentTrimsTheHost(current: FtpHostConfiguration.BapFtpHostConfiguration,
                                plain: HostConfiguration.BapHostConfiguration, info: BuildInfo)
    requires current.hostname == plain.hostname && current.hostname == " ftp.example.com"
    ensures Connect("ftp.example.com", current.port) in SetupPlan(current.Params(info))
    ensures Connect(" ftp.example.com", plain.port) in SetupPlan(plain.Params(info))
    ensures Connect("ftp.example.com", plain.port) !in SetupPlan(plain.Params(info))
  {
    assert Trim(" ftp.example.com") == "ftp.example.com";
    ConnectInPlan(current.Params(info));
    ConnectInPlan(plain.Params(info));
  }

  /** An IOException that stops a session is reported by all three with
      its message, the current configuration putting its class name first,
      and kept as the cause; anything else escapes unchanged. */
  lemma FailureReports(e: Error)
    ensures e.Thrown? && e.fault.kind == IOException ==>
      && FtpHostConfiguration.CreateFailure(e) ==
           BapPublisherException(FailedToCreateClient(e.fault.className + ": " + e.fault.message), Some(e.fault))
      && HostConfiguration.CreateFailure(e) == BapPublisherException(FailedToCreateClient(e.fault.message), Some(e.fault))
      && LegacyHostConfiguration.CreateFailure(e) == HostConfiguration.CreateFailure(e)
    ensures !(e.Thrown? && e.fault.kind == IOException) ==>
      FtpHostConfiguration.CreateFailure(e) == e && HostConfiguration.CreateFailure(e) == e &&
      LegacyHostConfiguration.CreateFailure(e) == e
  {
  }
}
