/**
 * The current FTP client (package jenkins.plugins.publish_over_ftp): the
 * operations the publisher runs on an open session.  Each method makes its
 * calls on the `FtpServer` and turns the replies into the plugin's
 * outcomes: an IOException raised inside a method that catches it becomes a
 * BapPublisherException with the fault as its cause, and a refused command
 * becomes a BapPublisherException without one.
 */
module Client {
  import opened Ftp
  import opened PublishOver
  import opened Purge

  /** The boolean answer of a call made inside a handler that turns an
      IOException into a publisher error with message `m`. */
  function Answer(reply: Reply<bool>, m: Message): Result<bool> {
    match reply
    case Value(b) => Ok(b)
    case Raise(x) => Err(Wrap(x, m))
  }

  class BapFtpClient {
    const ftp: FtpServer?
    const buildInfo: BuildInfo
    var disableMakeNestedDirs: bool
    /** Held by the client's base class; set once the session is open. */
    var absoluteRemoteRoot: Option<string>

    constructor (ftp: FtpServer?, buildInfo: BuildInfo)
      ensures this.ftp == ftp && this.buildInfo == buildInfo
      ensures !disableMakeNestedDirs && absoluteRemoteRoot.None?
    {
      this.ftp := ftp;
      this.buildInfo := buildInfo;
      disableMakeNestedDirs := false;
      absoluteRemoteRoot := None;
    }

    method SetDisableMakeNestedDirs(disable: bool)
      modifies this`disableMakeNestedDirs
      ensures disableMakeNestedDirs == disable
    {
      disableMakeNestedDirs := disable;
    }

    method SetAbsoluteRemoteRoot(root: Option<string>)
      modifies this`absoluteRemoteRoot
      ensures absoluteRemoteRoot == root
    {
      absoluteRemoteRoot := root;
    }

    /** CWD; an IOException is reported with the directory and the cause. */
    method ChangeDirectory(directory: string) returns (r: Result<bool>)
      requires ftp != null
      modifies ftp`trace, ftp`here, ftp`above
      ensures ftp.trace == old(ftp.trace) + [ChangeWorkingDirectory(directory)]
      ensures r == Answer(CwdReply(old(ftp.here), ftp.script.paths, directory), CwdException(directory))
      ensures (ftp.here, ftp.above) ==
        if r == Ok(true) then CwdMove(old(ftp.here), old(ftp.above), ftp.script.paths, directory)
        else (old(ftp.here), old(ftp.above))
    {
      var reply := ftp.ChangeWorkingDirectory(directory);
      r := Answer(reply, CwdException(directory));
    }

    /** MKD, except that with nested directories disabled a path holding a
        "/" is refused without asking the server. */
    method MakeDirectory(directory: string) returns (r: Result<bool>)
      requires ftp != null
      modifies ftp`trace
      ensures disableMakeNestedDirs && '/' in directory ==> r == Ok(false) && ftp.trace == old(ftp.trace)
      ensures !(disableMakeNestedDirs && '/' in directory) ==>
        ftp.trace == old(ftp.trace) + [Command.MakeDirectory(directory)] &&
        r == Answer(ftp.script.mkd, MkdirException(directory))
    {
      if disableMakeNestedDirs && '/' in directory {
        return Ok(false);
      }
      var reply := ftp.MakeDirectory(directory);
      r := Answer(reply, MkdirException(directory));
    }

    /** Deletes everything below the current directory, hidden entries
        included.  On success the cursor is back where it started and the
        directory holds at most "." and ".."; on failure the cursor may be
        left further down, never above. */
    method DeleteTree() returns (r: Outcome)
      requires ftp != null
      modifies ftp`trace, ftp`here, ftp`above, ftp`showHidden
      ensures ftp.showHidden
      ensures ftp.trace == old(ftp.trace) + [SetListHiddenFiles(true)] + PurgeFolder(old(ftp.here)).commands
      ensures r == PurgeFolder(old(ftp.here)).outcome
      ensures r.Done? ==> ftp.here == PurgeFolder(old(ftp.here)).after && ftp.above == old(ftp.above)
      ensures old(ftp.above) <= ftp.above
    {
      ftp.SetListHiddenFiles(true);
      r := Delete(ftp.here);
    }

    /** Lists the current directory, `dir`, and deletes each listed entry. */
    method Delete(ghost dir: Folder) returns (r: Outcome)
      requires ftp != null && ftp.showHidden && ftp.here == dir
      modifies ftp`trace, ftp`here, ftp`above
      decreases dir, 1
      ensures ftp.trace == old(ftp.trace) + PurgeFolder(dir).commands
      ensures r == PurgeFolder(dir).outcome
      ensures r.Done? ==> ftp.here == PurgeFolder(dir).after && ftp.above == old(ftp.above)
      ensures old(ftp.above) <= ftp.above
    {
      var listing := ftp.InitiateListParsing();
      if listing.Raise? {
        return Abort(Thrown(listing.fault));
      }
      if listing.value.None? {
        return Abort(BapPublisherException(ListParserNull, None));
      }
      r := DeleteListed(listing.value.value, dir);
    }

    /** Deletes the listed entries of `dir` in order, stopping at the first
        failure. */
    method DeleteListed(files: seq<FtpFile>, ghost dir: Folder) returns (r: Outcome)
      requires ftp != null && ftp.showHidden && ftp.here == dir
      requires |files| == |dir.entries| && forall j :: 0 <= j < |files| ==> files[j] == FileOf(dir.entries[j])
      modifies ftp`trace, ftp`here, ftp`above
      decreases dir, 0
      ensures ftp.trace == old(ftp.trace) + PurgeEntries(dir.entries).commands
      ensures r == PurgeEntries(dir.entries).outcome
      ensures r.Done? ==> ftp.here == dir.(entries := PurgeEntries(dir.entries).after) && ftp.above == old(ftp.above)
      ensures old(ftp.above) <= ftp.above
    {
      ghost var seen: seq<Entry> := [];
      ghost var rest := dir.entries;
      var i := 0;
      while i < |files|
        invariant i <= |files| && i == |seen| && seen + rest == dir.entries
        invariant ftp.showHidden
        invariant PurgeEntries(seen).outcome.Done? && OnlyDots(PurgeEntries(seen).after)
        invariant ftp.here == dir.(entries := PurgeEntries(seen).after + rest)
        invariant ftp.trace == old(ftp.trace) + PurgeEntries(seen).commands
        invariant ftp.above == old(ftp.above)
      {
        ghost var e, tail := rest[0], rest[1..];
        assert dir.entries[i] == e && rest == [e] + tail;
        ghost var done := PurgeEntries(seen);
        r := DeleteEntry(files[i], done.after, e, tail, old(ftp.trace), done.commands);
        if r.Abort? {
          PurgeEntriesStop(seen, rest);
          return;
        }
        PurgeEntriesStep(seen, e);
        assert PurgeEntries(seen + [e]).after == done.after + PurgeEntry(e).after;
        assert PurgeEntries(seen + [e]).commands == done.commands + PurgeEntry(e).commands;
        seen, rest := seen + [e], tail;
        i := i + 1;
      }
      assert seen == dir.entries;
      r := Done;
    }

    /** One listed entry `e`, found in the current directory behind entries
        that are all "." or "..". */
    method DeleteEntry(file: FtpFile, ghost before: seq<Entry>, ghost e: Entry, ghost rest: seq<Entry>, ghost base: seq<Command>, ghost log: seq<Command>)
      returns (r: Outcome)
      requires ftp != null && ftp.showHidden && file == FileOf(e) && ftp.trace == base + log
      requires ftp.here.entries == before + [e] + rest && OnlyDots(before)
      modifies ftp`trace, ftp`here, ftp`above
      decreases e, 3
      ensures ftp.trace == base + (log + PurgeEntry(e).commands)
      ensures r == PurgeEntry(e).outcome
      ensures r.Done? ==>
        ftp.above == old(ftp.above) &&
        ftp.here == old(ftp.here).(entries := before + PurgeEntry(e).after + rest)
      ensures old(ftp.above) <= ftp.above
    {
      if file.NullFile? {
        return Abort(BapPublisherException(FileIsNull, None));
      }
      var name := file.name;
      if name == "." || name == ".." {
        return Done;
      }
      if file.isDirectory {
        r := DeleteDirectory(name, before, e, rest);
      } else {
        r := DeleteFile(name, before, e, rest);
      }
    }

    /** DELE of a listed file. */
    method DeleteFile(name: string, ghost before: seq<Entry>, ghost e: Entry, ghost rest: seq<Entry>)
      returns (r: Outcome)
      requires ftp != null && e.FileEntry? && e.name == name && !IsDot(name)
      requires ftp.here.entries == before + [e] + rest && OnlyDots(before)
      modifies ftp`trace, ftp`here
      ensures ftp.trace == old(ftp.trace) + PurgeEntry(e).commands
      ensures r == PurgeEntry(e).outcome
      ensures r.Done? ==> ftp.here == old(ftp.here).(entries := before + rest)
    {
      Around(before, e, rest);
      IndexOfAfterDots(ftp.here.entries, |before|, name);
      var deleted := ftp.DeleteFile(name);
      if deleted.Raise? {
        return Abort(Thrown(deleted.fault));
      }
      if !deleted.value {
        return Abort(BapPublisherException(DeleFailed(name), None));
      }
      Removed(before, e, rest);
      r := Done;
    }

    /** CWD into a listed directory, delete its contents, then leave it and
        remove it. */
    method DeleteDirectory(name: string, ghost before: seq<Entry>, ghost e: Entry, ghost rest: seq<Entry>)
      returns (r: Outcome)
      requires ftp != null && ftp.showHidden && e.DirEntry? && e.name == name && !IsDot(name)
      requires ftp.here.entries == before + [e] + rest && OnlyDots(before)
      modifies ftp`trace, ftp`here, ftp`above
      decreases e, 2
      ensures ftp.trace == old(ftp.trace) + PurgeEntry(e).commands
      ensures r == PurgeEntry(e).outcome
      ensures r.Done? ==>
        ftp.above == old(ftp.above) && ftp.here == old(ftp.here).(entries := before + rest)
      ensures old(ftp.above) <= ftp.above
    {
      Around(before, e, rest);
      IndexOfAfterDots(ftp.here.entries, |before|, name);
      ghost var start := ftp.here;
      var entered := ChangeDirectory(name);
      if entered.Err? {
        return Abort(entered.error);
      }
      if !entered.value {
        return Abort(BapPublisherException(CwdException(name), None));
      }
      assert ftp.above == old(ftp.above) + [Frame(start, |before|)];
      r := Delete(e.dir);
      if r.Abort? {
        return;
      }
      r := LeaveDirectory(name, before, e, rest);
    }

    /** CDUP out of the emptied directory `name`, then RMD it. */
    method LeaveDirectory(name: string, ghost before: seq<Entry>, ghost e: Entry, ghost rest: seq<Entry>)
      returns (r: Outcome)
      requires ftp != null && e.DirEntry? && e.name == name && !IsDot(name) && ftp.above != []
      requires ftp.above[|ftp.above| - 1].index == |before| && OnlyDots(before)
      requires ftp.above[|ftp.above| - 1].parent.entries == before + [e] + rest
      modifies ftp`trace, ftp`here, ftp`above
      ensures ftp.trace == old(ftp.trace) + Leave(name, old(ftp.here)).commands
      ensures r == Leave(name, old(ftp.here)).outcome
      ensures r.Done? ==>
        ftp.above == old(ftp.above)[..|old(ftp.above)| - 1] &&
        ftp.here == old(ftp.above)[|old(ftp.above)| - 1].parent.(entries := before + rest)
      ensures old(ftp.above)[..|old(ftp.above)| - 1] <= ftp.above
    {
      ghost var purged := DirEntry(name, ftp.here);
      var up := ftp.ChangeToParentDirectory();
      if up.Raise? {
        return Abort(Thrown(up.fault));
      }
      if !up.value {
        return Abort(BapPublisherException(CdupFailed, None));
      }
      Replaced(before, e, rest, purged);
      Around(before, purged, rest);
      IndexOfAfterDots(ftp.here.entries, |before|, name);
      var removed := ftp.RemoveDirectory(name);
      if removed.Raise? {
        return Abort(Thrown(removed.fault));
      }
      if !removed.value {
        return Abort(BapPublisherException(RmdirFailed(name), None));
      }
      Removed(before, purged, rest);
      r := Done;
    }

    static lemma Around(before: seq<Entry>, e: Entry, rest: seq<Entry>)
      ensures (before + [e] + rest)[..|before|] == before && (before + [e] + rest)[|before|] == e
    {
      assert (before + [e] + rest)[..|before|] == before;
    }

    static lemma Replaced(before: seq<Entry>, e: Entry, rest: seq<Entry>, x: Entry)
      ensures (before + [e] + rest)[|before| := x] == before + [x] + rest
    {
      assert forall j :: 0 <= j < |before + [x] + rest| ==>
        (before + [e] + rest)[|before| := x][j] == (before + [x] + rest)[j];
    }

    static lemma Removed(before: seq<Entry>, e: Entry, rest: seq<Entry>)
      ensures Remove(before + [e] + rest, |before|) == before + rest
    {
      assert (before + [e] + rest)[..|before|] == before;
      assert (before + [e] + rest)[|before| + 1..] == rest;
    }

    /** Refuses a transfer set without source files; otherwise sets the file
        type the transfer asks for, reporting a refusal with the server's
        reply text. */
    method BeginTransfers(transfer: Transfer) returns (r: Outcome)
      requires ftp != null
      modifies ftp`trace
      ensures !transfer.hasConfiguredSourceFiles ==>
        r == Abort(BapPublisherException(NoSourceFiles, None)) && ftp.trace == old(ftp.trace)
      ensures transfer.hasConfiguredSourceFiles ==>
        var fileType := if transfer.asciiMode then Ascii else Binary;
        match ftp.script.fileType
        case Value(true) => r == Done && ftp.trace == old(ftp.trace) + [SetFileType(fileType)]
        case Value(false) =>
          r == Abort(BapPublisherException(FailedToSetTransferMode(ftp.script.replyString), None)) &&
          ftp.trace == old(ftp.trace) + [SetFileType(fileType), GetReplyString]
        case Raise(x) =>
          r == Abort(Wrap(x, ExceptionSettingTransferMode)) && ftp.trace == old(ftp.trace) + [SetFileType(fileType)]
    {
      if !transfer.hasConfiguredSourceFiles {
        return Abort(BapPublisherException(NoSourceFiles, None));
      }
      var setMode := SetTransferMode(transfer);
      match setMode
      case Raise(x) =>
        r := Abort(Wrap(x, ExceptionSettingTransferMode));
      case Value(ok) =>
        if ok {
          r := Done;
        } else {
          var reply := ftp.GetReplyString();
          r := Abort(BapPublisherException(FailedToSetTransferMode(reply), None));
        }
    }

    method SetTransferMode(transfer: Transfer) returns (r: Reply<bool>)
      requires ftp != null
      modifies ftp`trace
      ensures ftp.trace == old(ftp.trace) + [SetFileType(if transfer.asciiMode then Ascii else Binary)]
      ensures r == ftp.script.fileType
    {
      var fileType := if transfer.asciiMode then Ascii else Binary;
      r := ftp.SetFileType(fileType);
    }

    /** STOR under the file's own name (the caller passes the last element
        of its path); a refusal is reported with the server's reply text,
        a fault propagates as it is. */
    method TransferFile(fileName: string) returns (r: Outcome)
      requires ftp != null
      modifies ftp`trace
      ensures match ftp.script.store
        case Value(true) => r == Done && ftp.trace == old(ftp.trace) + [StoreFile(fileName)]
        case Value(false) =>
          r == Abort(BapPublisherException(FailedToStoreFile(ftp.script.replyString), None)) &&
          ftp.trace == old(ftp.trace) + [StoreFile(fileName), GetReplyString]
        case Raise(x) => r == Abort(Thrown(x)) && ftp.trace == old(ftp.trace) + [StoreFile(fileName)]
    {
      var stored := ftp.StoreFile(fileName);
      match stored
      case Raise(x) =>
        r := Abort(Thrown(x));
      case Value(ok) =>
        if ok {
          r := Done;
        } else {
          var reply := ftp.GetReplyString();
          r := Abort(BapPublisherException(FailedToStoreFile(reply), None));
        }
    }

    /** Closes a connected session; an IOException on closing is reported
        with its message and the cause. */
    method Disconnect() returns (r: Outcome)
      modifies if ftp != null then {ftp} else {}
      ensures ftp == null ==> r == Done
      ensures ftp != null && !old(ftp.connected) ==> r == Done && ftp.trace == old(ftp.trace) + [IsConnected]
      ensures ftp != null && old(ftp.connected) ==>
        ftp.trace == old(ftp.trace) + [IsConnected, Command.Disconnect] &&
        r == match ftp.script.close
             case None => Done
             case Some(x) => Abort(Wrap(x, ExceptionOnDisconnect(x.message)))
      ensures ftp != null ==> ftp.connected == (old(ftp.connected) && ftp.script.close.Some?)
      ensures ftp != null ==>
        ftp.here == old(ftp.here) && ftp.above == old(ftp.above) && ftp.mode == old(ftp.mode) &&
        ftp.listenerAttached == old(ftp.listenerAttached) && ftp.showHidden == old(ftp.showHidden)
    {
      if ftp == null {
        return Done;
      }
      var connected := ftp.IsConnected();
      if !connected {
        return Done;
      }
      var fault := ftp.Disconnect();
      match fault
      case None => r := Done;
      case Some(x) => r := Abort(Wrap(x, ExceptionOnDisconnect(x.message)));
    }

    /** Disconnect, swallowing every Exception; only a java.lang.Error gets
        through. */
    method DisconnectQuietly() returns (r: Outcome)
      modifies if ftp != null then {ftp} else {}
      ensures r.Done? || (r.error.Thrown? && r.error.fault.kind == JavaError)
      ensures ftp != null ==>
        ftp.trace == old(ftp.trace) + (if old(ftp.connected) then [IsConnected, Command.Disconnect] else [IsConnected])
      ensures ftp != null ==>
        r == if old(ftp.connected) && ftp.script.close.Some? && ftp.script.close.value.kind == JavaError
             then Abort(Thrown(ftp.script.close.value)) else Done
      ensures ftp != null ==> ftp.connected == (old(ftp.connected) && ftp.script.close.Some?)
      ensures ftp != null ==>
        ftp.here == old(ftp.here) && ftp.above == old(ftp.above) && ftp.mode == old(ftp.mode) &&
        ftp.listenerAttached == old(ftp.listenerAttached) && ftp.showHidden == old(ftp.showHidden)
    {
      r := Disconnect();
      if r.Abort? && IsException(r.error) {
        r := Done;
      }
    }
  }
}
