/**
 * The legacy FTP client (package hudson.plugins.bap_ftp): the same session
 * operations as the current client, without the guard against nested
 * directories, without deleting remote trees and without the check that a
 * transfer set has source files; closing it quietly swallows everything.
 */
module LegacyClient {
  import opened Ftp
  import opened PublishOver

  class BapFtpClient {
    const ftp: FtpServer?
    const buildInfo: BuildInfo
    var absoluteRemoteRoot: Option<string>

    constructor (ftp: FtpServer?, buildInfo: BuildInfo)
      ensures this.ftp == ftp && this.buildInfo == buildInfo && absoluteRemoteRoot.None?
    {
      this.ftp := ftp;
      this.buildInfo := buildInfo;
      absoluteRemoteRoot := None;
    }

    method SetAbsoluteRemoteRoot(root: Option<string>)
      modifies this`absoluteRemoteRoot
      ensures absoluteRemoteRoot == root
    {
      absoluteRemoteRoot := root;
    }

    /** CWD; an IOException is reported with the directory and the cause. */
    method ChangeDirectory(directory: string) returns (r: Result<bool>)
      requires ftp != null
      modifies ftp`trace, ftp`here, ftp`above
      ensures ftp.trace == old(ftp.trace) + [ChangeWorkingDirectory(directory)]
      ensures r.Ok? <==> CwdReply(old(ftp.here), ftp.script.paths, directory).Value?
      ensures r.Ok? ==> r.value == CwdReply(old(ftp.here), ftp.script.paths, directory).value
      ensures r.Err? ==> r.error == Wrap(CwdReply(old(ftp.here), ftp.script.paths, directory).fault, CwdException(directory))
      ensures (ftp.here, ftp.above) ==
        if r == Ok(true) then CwdMove(old(ftp.here), old(ftp.above), ftp.script.paths, directory)
        else (old(ftp.here), old(ftp.above))
    {
      var reply := ftp.ChangeWorkingDirectory(directory);
      match reply
      case Value(b) => r := Ok(b);
      case Raise(x) => r := Err(Wrap(x, CwdException(directory)));
    }

    /** Goes back to the absolute remote root the session settled on. */
    method ChangeToInitialDirectory() returns (r: Result<bool>)
      requires ftp != null && absoluteRemoteRoot.Some?
      modifies ftp`trace, ftp`here, ftp`above
      ensures ftp.trace == old(ftp.trace) + [ChangeWorkingDirectory(absoluteRemoteRoot.value)]
      ensures r.Ok? <==> CwdReply(old(ftp.here), ftp.script.paths, absoluteRemoteRoot.value).Value?
      ensures r.Ok? ==> r.value == CwdReply(old(ftp.here), ftp.script.paths, absoluteRemoteRoot.value).value
      ensures r.Err? ==>
        r.error == Wrap(CwdReply(old(ftp.here), ftp.script.paths, absoluteRemoteRoot.value).fault,
                        CwdException(absoluteRemoteRoot.value))
      ensures (ftp.here, ftp.above) ==
        if r == Ok(true) then CwdMove(old(ftp.here), old(ftp.above), ftp.script.paths, absoluteRemoteRoot.value)
        else (old(ftp.here), old(ftp.above))
    {
      r := ChangeDirectory(absoluteRemoteRoot.value);
    }

    /** MKD; an IOException is reported with the directory and the cause. */
    method MakeDirectory(directory: string) returns (r: Result<bool>)
      requires ftp != null
      modifies ftp`trace
      ensures ftp.trace == old(ftp.trace) + [Command.MakeDirectory(directory)]
      ensures r.Ok? <==> ftp.script.mkd.Value?
      ensures r.Ok? ==> r.value == ftp.script.mkd.value
      ensures r.Err? ==> r.error == Wrap(ftp.script.mkd.fault, MkdirException(directory))
    {
      var reply := ftp.MakeDirectory(directory);
      match reply
      case Value(b) => r := Ok(b);
      case Raise(x) => r := Err(Wrap(x, MkdirException(directory)));
    }

    /** Sets the file type the transfer asks for; a refusal is reported with
        the server's reply text. */
    method BeginTransfers(transfer: Transfer) returns (r: Outcome)
      requires ftp != null
      modifies ftp`trace
      ensures var fileType := if transfer.asciiMode then Ascii else Binary;
        match ftp.script.fileType
        case Value(true) => r == Done && ftp.trace == old(ftp.trace) + [SetFileType(fileType)]
        case Value(false) =>
          r == Abort(BapPublisherException(FailedToSetTransferMode(ftp.script.replyString), None)) &&
          ftp.trace == old(ftp.trace) + [SetFileType(fileType), GetReplyString]
        case Raise(x) =>
          r == Abort(Wrap(x, ExceptionSettingTransferMode)) && ftp.trace == old(ftp.trace) + [SetFileType(fileType)]
    {
      var fileType := if transfer.asciiMode then Ascii else Binary;
      var setMode := ftp.SetFileType(fileType);
      match setMode
      case Raise(x) =>
        r := Abort(Wrap(x, ExceptionSettingTransferMode));
      case Value(ok) =>
        if ok {
          r := Done;
        } else {
          var reply := ftp.GetReplyString();
          r := Abort(BapPublisherException(FailedToSetTransferMode(reply), None));
        }
    }

    /** STOR under the file's own name; a refusal is reported with the
        server's reply text, a fault propagates as it is. */
    method TransferFile(fileName: string) returns (r: Outcome)
      requires ftp != null
      modifies ftp`trace
      ensures match ftp.script.store
        case Value(true) => r == Done && ftp.trace == old(ftp.trace) + [StoreFile(fileName)]
        case Value(false) =>
          r == Abort(BapPublisherException(FailedToStoreFile(ftp.script.replyString), None)) &&
          ftp.trace == old(ftp.trace) + [StoreFile(fileName), GetReplyString]
        case Raise(x) => r == Abort(Thrown(x)) && ftp.trace == old(ftp.trace) + [StoreFile(fileName)]
    {
      var stored := ftp.StoreFile(fileName);
      match stored
      case Raise(x) =>
        r := Abort(Thrown(x));
      case Value(ok) =>
        if ok {
          r := Done;
        } else {
          var reply := ftp.GetReplyString();
          r := Abort(BapPublisherException(FailedToStoreFile(reply), None));
        }
    }

    /** Closes a connected session; an IOException on closing is reported
        with its message and the cause. */
    method Disconnect() returns (r: Outcome)
      modifies if ftp != null then {ftp} else {}
      ensures ftp == null ==> r == Done
      ensures ftp != null && !old(ftp.connected) ==> r == Done && ftp.trace == old(ftp.trace) + [IsConnected]
      ensures ftp != null && old(ftp.connected) ==>
        ftp.trace == old(ftp.trace) + [IsConnected, Command.Disconnect] &&
        r == match ftp.script.close
             case None => Done
             case Some(x) => Abort(Wrap(x, ExceptionOnDisconnect(x.message)))
      ensures ftp != null ==> ftp.connected == (old(ftp.connected) && ftp.script.close.Some?)
      ensures ftp != null ==>
        ftp.here == old(ftp.here) && ftp.above == old(ftp.above) && ftp.mode == old(ftp.mode) &&
        ftp.listenerAttached == old(ftp.listenerAttached) && ftp.showHidden == old(ftp.showHidden)
    {
      if ftp == null {
        return Done;
      }
      var connected := ftp.IsConnected();
      if !connected {
        return Done;
      }
      var fault := ftp.Disconnect();
      match fault
      case None => r := Done;
      case Some(x) => r := Abort(Wrap(x, ExceptionOnDisconnect(x.message)));
    }

    /** Disconnect, swallowing every Throwable: closing quietly never fails. */
    method DisconnectQuietly()
      modifies if ftp != null then {ftp} else {}
      ensures ftp != null ==>
        ftp.trace == old(ftp.trace) + (if old(ftp.connected) then [IsConnected, Command.Disconnect] else [IsConnected])
      ensures ftp != null ==> ftp.connected == (old(ftp.connected) && ftp.script.close.Some?)
      ensures ftp != null ==>
        ftp.here == old(ftp.here) && ftp.above == old(ftp.above) && ftp.mode == old(ftp.mode) &&
        ftp.listenerAttached == old(ftp.listenerAttached) && ftp.showHidden == old(ftp.showHidden)
    {
      var _ := Disconnect();
    }
  }
}
