/**
 * The FTP endpoint the plugin talks to: the Apache Commons Net FTPClient
 * together with the server behind it, reduced to what the plugin observes.
 *
 * Every call the plugin makes on the FTPClient is appended to `trace`, in
 * order, including the purely local ones (timeouts, data mode, listeners,
 * reply accessors), so a trace plays the part of a strict mock's expected
 * call list.  The server's answers come from a fixed `Script` and, for the
 * commands that act on the remote tree (CWD, LIST, CDUP, RMD, DELE), from
 * the tree itself: every folder and file carries the reply the server gives
 * to the command about it.  A reply is either a value or a fault that the
 * call throws.
 */
module Ftp {

  datatype Option<+T> = None | Some(value: T)

  /** Which Java throwable a call raised: a checked IOException, an unchecked
      RuntimeException, or a java.lang.Error. */
  datatype FaultKind = IOException | RuntimeException | JavaError

  datatype Fault = Fault(kind: FaultKind, className: string, message: string)

  /** The server's answer to one call: a value, or a fault thrown from it. */
  datatype Reply<+T> = Value(value: T) | Raise(fault: Fault)

  datatype FileType = Ascii | Binary

  datatype DataMode = Unset | Active | Passive

  /** One call on the FTPClient. */
  datatype Command =
    | AddProtocolCommandListener
    | RemoveProtocolCommandListener
    | SetDefaultTimeout(millis: int)
    | SetDataTimeout(millis: int)
    | SetControlEncoding(encoding: string)
    | Connect(host: string, port: int)
    | GetReplyCode
    | EnterLocalActiveMode
    | EnterLocalPassiveMode
    | Login(username: string, password: string)
    | ChangeWorkingDirectory(path: string)
    | PrintWorkingDirectory
    | MakeDirectory(path: string)
    | SetFileType(fileType: FileType)
    | StoreFile(name: string)
    | GetReplyString
    | SetListHiddenFiles(show: bool)
    | InitiateListParsing
    | ChangeToParentDirectory
    | RemoveDirectory(name: string)
    | DeleteFile(name: string)
    | IsConnected
    | Disconnect

  /** One slot of a remote directory listing.  `NullEntry` is a listing line
      the parser could not turn into a file (the engine yields null). */
  datatype Entry =
    | NullEntry
    | FileEntry(name: string, dele: Reply<bool>)
    | DirEntry(name: string, dir: Folder)

  /** A remote directory: its entries in listing order (the server may list
      "." and ".." as entries) and the server's replies to CWD into it, to
      LIST inside it (false: no listing engine), to CDUP out of it and to RMD
      of it. */
  datatype Folder = Folder(entries: seq<Entry>, cwd: Reply<bool>, list: Reply<bool>,
                           cdup: Reply<bool>, rmd: Reply<bool>)

  /** What the listing engine hands out for one entry (an FTPFile or null). */
  datatype FtpFile = NullFile | Listed(name: string, isDirectory: bool)

  /** The cursor went into entry `index` of `parent`. */
  datatype Frame = Frame(parent: Folder, index: nat)

  /** The server's fixed answers to the commands that do not act on the tree.
      `paths` are the directories the server resolves by a path that is not
      a child of the current directory. */
  datatype Script = Script(
    connectFault: Option<Fault>,
    replyCode: int,
    loginFault: Option<Fault>,
    accounts: set<(string, string)>,
    pwd: Reply<Option<string>>,
    paths: map<string, Folder>,
    mkd: Reply<bool>,
    fileType: Reply<bool>,
    store: Reply<bool>,
    replyString: string,
    close: Option<Fault>)

  /** FTPReply.isPositiveCompletion: a 2xx reply code. */
  predicate IsPositiveCompletion(code: int) {
    200 <= code < 300
  }

  predicate IsDot(name: string) {
    name == "." || name == ".."
  }

  predicate IsHidden(name: string) {
    |name| > 0 && name[0] == '.'
  }

  /** Every entry is a real entry named "." or "..": the directory is empty. */
  predicate OnlyDots(es: seq<Entry>) {
    forall e :: e in es ==> !e.NullEntry? && IsDot(e.name)
  }

  /** The position of the first entry called `name`, or |es| if there is none. */
  function IndexOf(es: seq<Entry>, name: string): (k: nat)
    ensures k <= |es|
    ensures k < |es| ==> !es[k].NullEntry? && es[k].name == name
    ensures forall j :: 0 <= j < k ==> es[j].NullEntry? || es[j].name != name
  {
    if es == [] then 0
    else if !es[0].NullEntry? && es[0].name == name then 0
    else 1 + IndexOf(es[1..], name)
  }

  function FileOf(e: Entry): FtpFile {
    match e
    case NullEntry => NullFile
    case FileEntry(n, _) => Listed(n, false)
    case DirEntry(n, _) => Listed(n, true)
  }

  /** What LIST reports for `es`: every entry when hidden files are shown,
      otherwise only the entries whose name does not start with a dot. */
  function Listing(es: seq<Entry>, showHidden: bool): (r: seq<FtpFile>)
    ensures |r| <= |es|
    ensures showHidden ==> |r| == |es| && forall j :: 0 <= j < |es| ==> r[j] == FileOf(es[j])
    ensures forall j :: 0 <= j < |r| ==> showHidden || r[j].NullFile? || !IsHidden(r[j].name)
  {
    if es == [] then []
    else
      var head := if showHidden || es[0].NullEntry? || !IsHidden(es[0].name) then [FileOf(es[0])] else [];
      head + Listing(es[1..], showHidden)
  }

  function Remove(es: seq<Entry>, k: nat): seq<Entry> {
    if k < |es| then es[..k] + es[k + 1..] else es
  }

  /** Put `child` back into the entry the cursor left through. */
  function Plug(fr: Frame, child: Folder): Folder {
    var es := fr.parent.entries;
    if fr.index < |es| && es[fr.index].DirEntry? then
      fr.parent.(entries := es[fr.index := DirEntry(es[fr.index].name, child)])
    else fr.parent
  }

  /** `path` names a sub-directory of `here` (not "." or ".."). */
  predicate IsChildFolder(here: Folder, path: string) {
    var k := IndexOf(here.entries, path);
    !IsDot(path) && k < |here.entries| && here.entries[k].DirEntry?
  }

  function CwdReply(here: Folder, paths: map<string, Folder>, path: string): Reply<bool> {
    if IsChildFolder(here, path) then here.entries[IndexOf(here.entries, path)].dir.cwd
    else if path in paths then paths[path].cwd
    else Value(false)
  }

  /** Where an accepted CWD leaves the cursor: one level down into a child,
      or at a directory the server resolves by path (whose parents the model
      does not follow). */
  function CwdMove(here: Folder, above: seq<Frame>, paths: map<string, Folder>, path: string): (Folder, seq<Frame>) {
    if IsChildFolder(here, path) then
      var k := IndexOf(here.entries, path);
      (here.entries[k].dir, above + [Frame(here, k)])
    else if path in paths then (paths[path], [])
    else (here, above)
  }

  /** At the top of the modelled tree there is no parent to go to. */
  function CdupReply(here: Folder, above: seq<Frame>): Reply<bool> {
    if above == [] then Value(false) else here.cdup
  }

  /** A directory is removed only if it is empty apart from "." and "..";
      otherwise the server refuses RMD whatever the folder's own reply. */
  function RmdReply(f: Folder): Reply<bool> {
    if f.rmd == Value(true) && !OnlyDots(f.entries) then Value(false) else f.rmd
  }

  function RmdReplyAt(here: Folder, name: string): Reply<bool> {
    var k := IndexOf(here.entries, name);
    if k < |here.entries| && here.entries[k].DirEntry? then RmdReply(here.entries[k].dir)
    else Value(false)
  }

  function DeleReplyAt(here: Folder, name: string): Reply<bool> {
    var k := IndexOf(here.entries, name);
    if k < |here.entries| && here.entries[k].FileEntry? then here.entries[k].dele
    else Value(false)
  }

  function ListReply(here: Folder, showHidden: bool): Reply<Option<seq<FtpFile>>> {
    match here.list
    case Raise(x) => Raise(x)
    case Value(ok) => Value(if ok then Some(Listing(here.entries, showHidden)) else None)
  }

  function LoginReply(s: Script, username: string, password: string): Reply<bool> {
    if s.loginFault.Some? then Raise(s.loginFault.value)
    else Value((username, password) in s.accounts)
  }

  lemma {:induction false} IndexOfAfterDots(es: seq<Entry>, k: nat, name: string)
    requires k < |es| && !es[k].NullEntry? && es[k].name == name && !IsDot(name)
    requires OnlyDots(es[..k])
    ensures IndexOf(es, name) == k
  {
    if k > 0 {
      assert es[0] == es[..k][0];
      assert es[1..][..k - 1] == es[1..k];
      assert es[1..k] == es[..k][1..];
      IndexOfAfterDots(es[1..], k - 1, name);
    }
  }

  /**
   * The FTPClient with the server behind it.
   */
  class FtpServer {
    const script: Script
    var trace: seq<Command>
    var connected: bool
    var listenerAttached: bool
    var showHidden: bool
    var mode: DataMode
    /** The directory the cursor is in, and the directories above it, each
        with the entry the cursor went down through. */
    var here: Folder
    var above: seq<Frame>

    constructor (script: Script, root: Folder)
      ensures this.script == script && trace == []
      ensures !connected && !listenerAttached && !showHidden && mode == Unset
      ensures here == root && above == []
    {
      this.script := script;
      trace := [];
      connected, listenerAttached, showHidden, mode := false, false, false, Unset;
      here, above := root, [];
    }

    method AddProtocolCommandListener()
      modifies this`trace, this`listenerAttached
      ensures trace == old(trace) + [Command.AddProtocolCommandListener] && listenerAttached
    {
      trace := trace + [Command.AddProtocolCommandListener];
      listenerAttached := true;
    }

    method RemoveProtocolCommandListener()
      modifies this`trace, this`listenerAttached
      ensures trace == old(trace) + [Command.RemoveProtocolCommandListener] && !listenerAttached
    {
      trace := trace + [Command.RemoveProtocolCommandListener];
      listenerAttached := false;
    }

    method SetDefaultTimeout(millis: int)
      modifies this`trace
      ensures trace == old(trace) + [Command.SetDefaultTimeout(millis)]
    {
      trace := trace + [Command.SetDefaultTimeout(millis)];
    }

    method SetDataTimeout(millis: int)
      modifies this`trace
      ensures trace == old(trace) + [Command.SetDataTimeout(millis)]
    {
      trace := trace + [Command.SetDataTimeout(millis)];
    }

    method SetControlEncoding(encoding: string)
      modifies this`trace
      ensures trace == old(trace) + [Command.SetControlEncoding(encoding)]
    {
      trace := trace + [Command.SetControlEncoding(encoding)];
    }

    /** Opens the control connection; a fault means no connection was made. */
    method Connect(host: string, port: int) returns (fault: Option<Fault>)
      modifies this`trace, this`connected
      ensures trace == old(trace) + [Command.Connect(host, port)]
      ensures fault == script.connectFault
      ensures connected == (old(connected) || fault.None?)
    {
      trace := trace + [Command.Connect(host, port)];
      fault := script.connectFault;
      if fault.None? {
        connected := true;
      }
    }

    method GetReplyCode() returns (code: int)
      modifies this`trace
      ensures trace == old(trace) + [Command.GetReplyCode] && code == script.replyCode
    {
      trace := trace + [Command.GetReplyCode];
      code := script.replyCode;
    }

    method EnterLocalActiveMode()
      modifies this`trace, this`mode
      ensures trace == old(trace) + [Command.EnterLocalActiveMode] && mode == Active
    {
      trace := trace + [Command.EnterLocalActiveMode];
      mode := Active;
    }

    method EnterLocalPassiveMode()
      modifies this`trace, this`mode
      ensures trace == old(trace) + [Command.EnterLocalPassiveMode] && mode == Passive
    {
      trace := trace + [Command.EnterLocalPassiveMode];
      mode := Passive;
    }

    method Login(username: string, password: string) returns (r: Reply<bool>)
      modifies this`trace
      ensures trace == old(trace) + [Command.Login(username, password)]
      ensures r == LoginReply(script, username, password)
    {
      trace := trace + [Command.Login(username, password)];
      r := LoginReply(script, username, password);
    }

    method ChangeWorkingDirectory(path: string) returns (r: Reply<bool>)
      modifies this`trace, this`here, this`above
      ensures trace == old(trace) + [Command.ChangeWorkingDirectory(path)]
      ensures r == CwdReply(old(here), script.paths, path)
      ensures (here, above) == if r == Value(true) then CwdMove(old(here), old(above), script.paths, path)
                               else (old(here), old(above))
    {
      trace := trace + [Command.ChangeWorkingDirectory(path)];
      r := CwdReply(here, script.paths, path);
      if r == Value(true) {
        here, above := CwdMove(here, above, script.paths, path).0, CwdMove(here, above, script.paths, path).1;
      }
    }

    method PrintWorkingDirectory() returns (r: Reply<Option<string>>)
      modifies this`trace
      ensures trace == old(trace) + [Command.PrintWorkingDirectory] && r == script.pwd
    {
      trace := trace + [Command.PrintWorkingDirectory];
      r := script.pwd;
    }

    method MakeDirectory(path: string) returns (r: Reply<bool>)
      modifies this`trace
      ensures trace == old(trace) + [Command.MakeDirectory(path)] && r == script.mkd
    {
      trace := trace + [Command.MakeDirectory(path)];
      r := script.mkd;
    }

    method SetFileType(fileType: FileType) returns (r: Reply<bool>)
      modifies this`trace
      ensures trace == old(trace) + [Command.SetFileType(fileType)] && r == script.fileType
    {
      trace := trace + [Command.SetFileType(fileType)];
      r := script.fileType;
    }

    method StoreFile(name: string) returns (r: Reply<bool>)
      modifies this`trace
      ensures trace == old(trace) + [Command.StoreFile(name)] && r == script.store
    {
      trace := trace + [Command.StoreFile(name)];
      r := script.store;
    }

    method GetReplyString() returns (s: string)
      modifies this`trace
      ensures trace == old(trace) + [Command.GetReplyString] && s == script.replyString
    {
      trace := trace + [Command.GetReplyString];
      s := script.replyString;
    }

    method SetListHiddenFiles(show: bool)
      modifies this`trace, this`showHidden
      ensures trace == old(trace) + [Command.SetListHiddenFiles(show)] && showHidden == show
    {
      trace := trace + [Command.SetListHiddenFiles(show)];
      showHidden := show;
    }

    /** LIST in the current directory; `Value(None)` is a null listing engine. */
    method InitiateListParsing() returns (r: Reply<Option<seq<FtpFile>>>)
      modifies this`trace
      ensures trace == old(trace) + [Command.InitiateListParsing]
      ensures r == ListReply(here, showHidden)
    {
      trace := trace + [Command.InitiateListParsing];
      r := ListReply(here, showHidden);
    }

    method ChangeToParentDirectory() returns (r: Reply<bool>)
      modifies this`trace, this`here, this`above
      ensures trace == old(trace) + [Command.ChangeToParentDirectory]
      ensures r == CdupReply(old(here), old(above))
      ensures r == Value(true) ==>
                old(above) != [] &&
                here == Plug(old(above)[|old(above)| - 1], old(here)) &&
                above == old(above)[..|old(above)| - 1]
      ensures r != Value(true) ==> here == old(here) && above == old(above)
    {
      trace := trace + [Command.ChangeToParentDirectory];
      r := CdupReply(here, above);
      if r == Value(true) {
        here, above := Plug(above[|above| - 1], here), above[..|above| - 1];
      }
    }

    method RemoveDirectory(name: string) returns (r: Reply<bool>)
      modifies this`trace, this`here
      ensures trace == old(trace) + [Command.RemoveDirectory(name)]
      ensures r == RmdReplyAt(old(here), name)
      ensures here == if r == Value(true) then old(here).(entries := Remove(old(here).entries, IndexOf(old(here).entries, name)))
                      else old(here)
    {
      trace := trace + [Command.RemoveDirectory(name)];
      r := RmdReplyAt(here, name);
      if r == Value(true) {
        here := here.(entries := Remove(here.entries, IndexOf(here.entries, name)));
      }
    }

    method DeleteFile(name: string) returns (r: Reply<bool>)
      modifies this`trace, this`here
      ensures trace == old(trace) + [Command.DeleteFile(name)]
      ensures r == DeleReplyAt(old(here), name)
      ensures here == if r == Value(true) then old(here).(entries := Remove(old(here).entries, IndexOf(old(here).entries, name)))
                      else old(here)
    {
      trace := trace + [Command.DeleteFile(name)];
      r := DeleReplyAt(here, name);
      if r == Value(true) {
        here := here.(entries := Remove(here.entries, IndexOf(here.entries, name)));
      }
    }

    method IsConnected() returns (b: bool)
      modifies this`trace
      ensures trace == old(trace) + [Command.IsConnected] && b == connected
    {
      trace := trace + [Command.IsConnected];
      b := connected;
    }

    /** Closes the connection; a fault leaves it as it was. */
    method Disconnect() returns (fault: Option<Fault>)
      modifies this`trace, this`connected
      ensures trace == old(trace) + [Command.Disconnect] && fault == script.close
      ensures connected == (old(connected) && fault.Some?)
    {
      trace := trace + [Command.Disconnect];
      fault := script.close;
      if fault.None? {
        connected := false;
      }
    }
  }
}
