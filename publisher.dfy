/**
 * The values the publish-over framework hands to the FTP session layer and
 * the errors the layer reports back.  Every failure the plugin reports
 * itself is a BapPublisherException (a RuntimeException) carrying one of
 * the `Message`s below and, where the source passes one, the IOException
 * that caused it; anything else the FTP client throws travels unchanged.
 */
module PublishOver {
  import opened Ftp

  /** The localised messages, with the values each one is formatted from. */
  datatype Message =
    | CwdException(directory: string)
    | MkdirException(directory: string)
    | ListParserNull
    | FileIsNull
    | CdupFailed
    | RmdirFailed(name: string)
    | DeleFailed(name: string)
    | NoSourceFiles
    | FailedToSetTransferMode(reply: string)
    | ExceptionSettingTransferMode
    | FailedToStoreFile(reply: string)
    | ExceptionOnDisconnect(detail: string)
    | FailedToCreateClient(detail: string)
    | ConnectFailed(host: string, port: int, code: int)
    | LogInFailed(username: string)
    | CwdRemoteRoot(root: string)
    | PwdNotAbsolute(pwd: Option<string>)

  datatype Error =
    | BapPublisherException(message: Message, cause: Option<Fault>)
    | Thrown(fault: Fault)

  datatype Result<+T> = Ok(value: T) | Err(error: Error)

  datatype Outcome = Done | Abort(error: Error)

  datatype Credentials = Credentials(username: string, password: string)

  /** What the session layer reads from the build: whether the command
      listener is on, and credentials that replace the configured ones. */
  datatype BuildInfo = BuildInfo(verbose: bool, overrideCredentials: Option<Credentials>)

  /** What the client needs to know about one transfer set. */
  datatype Transfer = Transfer(asciiMode: bool, hasConfiguredSourceFiles: bool)

  /** A fault caught by a handler for IOException: an IOException becomes a
      publisher error with message `m` and the fault as its cause; any other
      fault is not caught and propagates as it is. */
  function Wrap(x: Fault, m: Message): (e: Error)
    ensures e.BapPublisherException? <==> x.kind == IOException
    ensures e.BapPublisherException? ==> e.message == m && e.cause == Some(x)
    ensures e.Thrown? ==> e.fault == x
  {
    if x.kind == IOException then BapPublisherException(m, Some(x)) else Thrown(x)
  }

  /** Caught by a handler for java.lang.Exception: everything but a
      java.lang.Error (a BapPublisherException is a RuntimeException). */
  predicate IsException(e: Error) {
    e.BapPublisherException? || e.fault.kind != JavaError
  }
}
