/**
 * Recursive deletion of the contents of the current remote directory, as
 * the current client's deleteTree does it, stated as functions over the
 * server's tree.
 *
 * `PurgeFolder` follows the client step for step: list the directory, then
 * for each listed entry in order skip "." and "..", delete a file, or enter
 * a directory, empty it, come back up and remove it, stopping at the first
 * failure.  It reports the outcome, the calls made and what is left of the
 * tree.  `Plan` is an independent reference: the calls a deletion makes
 * when the server accepts everything.  The lemmas relate the two.
 */
module Purge {
  import opened Ftp
  import opened PublishOver

  datatype Step = Step(outcome: Outcome, commands: seq<Command>, after: seq<Entry>)

  datatype FolderStep = FolderStep(outcome: Outcome, commands: seq<Command>, after: Folder)

  /** Deleting the contents of `f`, with `f` the current directory and hidden
      files listed.  Only the entries of the folder can change. */
  function PurgeFolder(f: Folder): (r: FolderStep)
    decreases f
    ensures r.after == f.(entries := r.after.entries)
  {
    match f.list
    case Raise(x) => FolderStep(Abort(Thrown(x)), [InitiateListParsing], f)
    case Value(ok) =>
      if !ok then FolderStep(Abort(BapPublisherException(ListParserNull, None)), [InitiateListParsing], f)
      else
        var s := PurgeEntries(f.entries);
        FolderStep(s.outcome, [InitiateListParsing] + s.commands, f.(entries := s.after))
  }

  /** The listed entries in order, stopping at the first failure; entries not
      reached are left as they are. */
  function PurgeEntries(es: seq<Entry>): Step
    decreases es
  {
    if es == [] then Step(Done, [], [])
    else
      var h := PurgeEntry(es[0]);
      if h.outcome.Abort? then Step(h.outcome, h.commands, h.after + es[1..])
      else
        var t := PurgeEntries(es[1..]);
        Step(t.outcome, h.commands + t.commands, h.after + t.after)
  }

  /** One listed entry: `after` is what is left of it (nothing once it is
      deleted). */
  function PurgeEntry(e: Entry): Step
    decreases e
  {
    match e
    case NullEntry => Step(Abort(BapPublisherException(FileIsNull, None)), [], [e])
    case FileEntry(n, dele) =>
      if IsDot(n) then Step(Done, [], [e])
      else
        (match dele
         case Raise(x) => Step(Abort(Thrown(x)), [DeleteFile(n)], [e])
         case Value(ok) =>
           if ok then Step(Done, [DeleteFile(n)], [])
           else Step(Abort(BapPublisherException(DeleFailed(n), None)), [DeleteFile(n)], [e]))
    case DirEntry(n, sub) =>
      if IsDot(n) then Step(Done, [], [e])
      else
        var enter := [ChangeWorkingDirectory(n)];
        match sub.cwd
        case Raise(x) => Step(Abort(Wrap(x, CwdException(n))), enter, [e])
        case Value(ok) =>
          if !ok then Step(Abort(BapPublisherException(CwdException(n), None)), enter, [e])
          else
            var inner := PurgeFolder(sub);
            if inner.outcome.Abort? then Step(inner.outcome, enter + inner.commands, [DirEntry(n, inner.after)])
            else
              var up := Leave(n, inner.after);
              Step(up.outcome, enter + inner.commands + up.commands, up.after)
  }

  /** Back up to the parent of the emptied directory `n`, now `f`, and
      remove it there. */
  function Leave(n: string, f: Folder): Step {
    var left := [DirEntry(n, f)];
    match f.cdup
    case Raise(x) => Step(Abort(Thrown(x)), [ChangeToParentDirectory], left)
    case Value(up) =>
      if !up then Step(Abort(BapPublisherException(CdupFailed, None)), [ChangeToParentDirectory], left)
      else
        var remove := [ChangeToParentDirectory, RemoveDirectory(n)];
        match RmdReply(f)
        case Raise(x) => Step(Abort(Thrown(x)), remove, left)
        case Value(gone) =>
          if gone then Step(Done, remove, [])
          else Step(Abort(BapPublisherException(RmdirFailed(n), None)), remove, left)
  }

  /** The calls of a deletion the server accepts throughout. */
  function Plan(f: Folder): seq<Command>
    decreases f
  {
    [InitiateListParsing] + PlanEntries(f.entries)
  }

  function PlanEntries(es: seq<Entry>): seq<Command>
    decreases es
  {
    if es == [] then [] else PlanEntry(es[0]) + PlanEntries(es[1..])
  }

  function PlanEntry(e: Entry): seq<Command>
    decreases e
  {
    match e
    case NullEntry => []
    case FileEntry(n, _) => if IsDot(n) then [] else [DeleteFile(n)]
    case DirEntry(n, sub) =>
      if IsDot(n) then [] else [ChangeWorkingDirectory(n)] + Plan(sub) + [ChangeToParentDirectory, RemoveDirectory(n)]
  }

  /** Everything a deletion of `f` needs from the server: a listing, no
      unparsable entry, and every file deletion, descent, ascent and
      directory removal accepted. */
  predicate AcceptsAll(f: Folder)
    decreases f
  {
    f.list == Value(true) && forall j :: 0 <= j < |f.entries| ==> AcceptsEntry(f.entries[j])
  }

  predicate AcceptsEntry(e: Entry)
    decreases e
  {
    match e
    case NullEntry => false
    case FileEntry(n, dele) => IsDot(n) || dele == Value(true)
    case DirEntry(n, sub) =>
      IsDot(n) || (sub.cwd == Value(true) && sub.cdup == Value(true) && sub.rmd == Value(true) && AcceptsAll(sub))
  }

  lemma PrefixConcat(a: seq<Command>, b: seq<Command>, c: seq<Command>, d: seq<Command>)
    requires a == c && b <= d
    ensures a + b <= c + d
  {
    assert (c + d)[..|a + b|] == a + b;
  }

  /** A deletion succeeds exactly when the server accepts every step; it then
      made exactly the planned calls and left only "." and "..".  Whatever
      happens, the calls made are a prefix of the plan. */
  lemma {:induction false} FolderFacts(f: Folder)
    decreases f
    ensures PurgeFolder(f).commands <= Plan(f)
    ensures PurgeFolder(f).outcome.Done? <==> AcceptsAll(f)
    ensures PurgeFolder(f).outcome.Done? ==>
      PurgeFolder(f).commands == Plan(f) && OnlyDots(PurgeFolder(f).after.entries)
  {
    if f.list == Value(true) {
      EntriesFacts(f.entries);
      var s := PurgeEntries(f.entries);
      PrefixConcat([InitiateListParsing], s.commands, [InitiateListParsing], PlanEntries(f.entries));
    }
  }

  lemma {:induction false} EntriesFacts(es: seq<Entry>)
    decreases es
    ensures PurgeEntries(es).commands <= PlanEntries(es)
    ensures PurgeEntries(es).outcome.Done? <==> forall j :: 0 <= j < |es| ==> AcceptsEntry(es[j])
    ensures PurgeEntries(es).outcome.Done? ==>
      PurgeEntries(es).commands == PlanEntries(es) && OnlyDots(PurgeEntries(es).after)
  {
    if es != [] {
      EntryFacts(es[0]);
      var h := PurgeEntry(es[0]);
      if h.outcome.Abort? {
        PrefixConcat([], h.commands, [], PlanEntry(es[0]));
        assert h.commands <= PlanEntry(es[0]) + PlanEntries(es[1..]);
      } else {
        EntriesFacts(es[1..]);
        var t := PurgeEntries(es[1..]);
        PrefixConcat(h.commands, t.commands, PlanEntry(es[0]), PlanEntries(es[1..]));
        assert forall j :: 1 <= j < |es| ==> es[j] == es[1..][j - 1];
        if t.outcome.Done? {
          assert forall j :: 0 <= j < |h.after + t.after| ==>
            (h.after + t.after)[j] == if j < |h.after| then h.after[j] else t.after[j - |h.after|];
        }
      }
    }
  }

  lemma {:induction false} EntryFacts(e: Entry)
    decreases e
    ensures PurgeEntry(e).commands <= PlanEntry(e)
    ensures PurgeEntry(e).outcome.Done? <==> AcceptsEntry(e)
    ensures PurgeEntry(e).outcome.Done? ==> PurgeEntry(e).commands == PlanEntry(e) && OnlyDots(PurgeEntry(e).after)
  {
    match e
    case NullEntry =>
    case FileEntry(n, _) =>
    case DirEntry(n, sub) =>
      if !IsDot(n) && sub.cwd == Value(true) {
        FolderFacts(sub);
        var inner := PurgeFolder(sub);
        var enter := [ChangeWorkingDirectory(n)];
        var tail := [ChangeToParentDirectory, RemoveDirectory(n)];
        assert PlanEntry(e) == enter + Plan(sub) + tail;
        if inner.outcome.Abort? {
          PrefixConcat(enter, inner.commands, enter, Plan(sub) + tail);
          assert enter + Plan(sub) + tail == enter + (Plan(sub) + tail);
        } else {
          assert inner.after.rmd == sub.rmd && inner.after.cdup == sub.cdup;
          assert PurgeEntry(e).commands <= enter + inner.commands + tail;
        }
      }
  }

  /** Entries dealt with successfully do not affect how the following ones
      are dealt with: a deletion can be followed entry by entry. */
  lemma {:induction false} PurgeEntriesAppend(a: seq<Entry>, b: seq<Entry>)
    requires PurgeEntries(a).outcome.Done?
    ensures PurgeEntries(a + b) ==
      Step(PurgeEntries(b).outcome, PurgeEntries(a).commands + PurgeEntries(b).commands,
           PurgeEntries(a).after + PurgeEntries(b).after)
  {
    if a == [] {
      assert a + b == b;
    } else {
      assert (a + b)[0] == a[0];
      assert (a + b)[1..] == a[1..] + b;
      PurgeEntriesAppend(a[1..], b);
      var h := PurgeEntry(a[0]);
      var ta := PurgeEntries(a[1..]);
      var tb := PurgeEntries(b);
      assert h.commands + (ta.commands + tb.commands) == (h.commands + ta.commands) + tb.commands;
      assert h.after + (ta.after + tb.after) == (h.after + ta.after) + tb.after;
    }
  }

  /** One more entry dealt with successfully. */
  lemma PurgeEntriesStep(seen: seq<Entry>, x: Entry)
    requires PurgeEntries(seen).outcome.Done? && OnlyDots(PurgeEntries(seen).after)
    requires PurgeEntry(x).outcome.Done?
    ensures PurgeEntries(seen + [x]) ==
      Step(Done, PurgeEntries(seen).commands + PurgeEntry(x).commands,
           PurgeEntries(seen).after + PurgeEntry(x).after)
    ensures OnlyDots(PurgeEntries(seen + [x]).after)
  {
    PurgeEntriesAppend(seen, [x]);
    EntryFacts(x);
  }

  /** The first failure ends the deletion of the listed entries. */
  lemma PurgeEntriesStop(seen: seq<Entry>, rest: seq<Entry>)
    requires rest != [] && PurgeEntries(seen).outcome.Done?
    requires PurgeEntry(rest[0]).outcome.Abort?
    ensures PurgeEntries(seen + rest).outcome == PurgeEntry(rest[0]).outcome
    ensures PurgeEntries(seen + rest).commands == PurgeEntries(seen).commands + PurgeEntry(rest[0]).commands
  {
    PurgeEntriesAppend(seen, rest);
  }

  /** The call names "." or ".." as a directory to enter or remove or a file
      to delete. */
  predicate NamesDot(c: Command) {
    || (c.ChangeWorkingDirectory? && IsDot(c.path))
    || (c.RemoveDirectory? && IsDot(c.name))
    || (c.DeleteFile? && IsDot(c.name))
  }

  /** A deletion never tries to enter, remove or delete "." or "..". */
  lemma {:induction false} PlanNeverNamesDots(f: Folder)
    decreases f
    ensures forall c :: c in Plan(f) ==> !NamesDot(c)
  {
    PlanEntriesNeverNameDots(f.entries);
  }

  lemma {:induction false} PlanEntriesNeverNameDots(es: seq<Entry>)
    decreases es
    ensures forall c :: c in PlanEntries(es) ==> !NamesDot(c)
  {
    if es != [] {
      PlanEntryNeverNamesDots(es[0]);
      PlanEntriesNeverNameDots(es[1..]);
    }
  }

  lemma {:induction false} PlanEntryNeverNamesDots(e: Entry)
    decreases e
    ensures forall c :: c in PlanEntry(e) ==> !NamesDot(c)
  {
    match e
    case NullEntry =>
    case FileEntry(n, _) =>
    case DirEntry(n, sub) =>
      if !IsDot(n) {
        PlanNeverNamesDots(sub);
      }
  }

  /** Whatever the server answers, a deletion never names "." or "..". */
  lemma PurgeNeverNamesDots(f: Folder)
    ensures forall c :: c in PurgeFolder(f).commands ==> !NamesDot(c)
  {
    FolderFacts(f);
    PlanNeverNamesDots(f);
    var t := PurgeFolder(f).commands;
    forall c | c in t
      ensures c in Plan(f)
    {
      var j :| 0 <= j < |t| && t[j] == c;
      assert Plan(f)[j] == c;
    }
  }

  /** How many levels a call moves the working directory down. */
  function Delta(c: Command): int {
    if c.ChangeWorkingDirectory? then 1 else if c == ChangeToParentDirectory then -1 else 0
  }

  function Depth(t: seq<Command>): int {
    if t == [] then 0 else Depth(t[..|t| - 1]) + Delta(t[|t| - 1])
  }

  /** The calls `t` end in the directory they started in and never leave it
      upwards on the way. */
  predicate Balanced(t: seq<Command>) {
    Depth(t) == 0 && forall k :: 0 <= k <= |t| ==> Depth(t[..k]) >= 0
  }

  lemma {:induction false} DepthAppend(a: seq<Command>, b: seq<Command>)
    ensures Depth(a + b) == Depth(a) + Depth(b)
  {
    if b == [] {
      assert a + b == a;
    } else {
      assert (a + b)[..|a + b| - 1] == a + b[..|b| - 1];
      DepthAppend(a, b[..|b| - 1]);
    }
  }

  lemma BalancedAppend(a: seq<Command>, b: seq<Command>)
    requires Balanced(a) && Balanced(b)
    ensures Balanced(a + b)
  {
    DepthAppend(a, b);
    forall k | 0 <= k <= |a + b|
      ensures Depth((a + b)[..k]) >= 0
    {
      if k <= |a| {
        assert (a + b)[..k] == a[..k];
      } else {
        assert (a + b)[..k] == a + b[..k - |a|];
        DepthAppend(a, b[..k - |a|]);
      }
    }
  }

  lemma BalancedVisit(n: string, a: seq<Command>)
    requires Balanced(a)
    ensures Balanced([ChangeWorkingDirectory(n)] + a + [ChangeToParentDirectory, RemoveDirectory(n)])
  {
    var enter := [ChangeWorkingDirectory(n)];
    var t := enter + a + [ChangeToParentDirectory, RemoveDirectory(n)];
    DepthAppend(enter, a);
    DepthAppend(enter + a, [ChangeToParentDirectory, RemoveDirectory(n)]);
    assert Depth([ChangeToParentDirectory, RemoveDirectory(n)]) == -1 by {
      assert [ChangeToParentDirectory, RemoveDirectory(n)][..1] == [ChangeToParentDirectory];
      assert [ChangeToParentDirectory][..0] == [];
    }
    assert Depth(enter) == 1 by {
      assert enter[..0] == [];
    }
    forall k | 0 <= k <= |t|
      ensures Depth(t[..k]) >= 0
    {
      if k == 0 {
        assert t[..k] == [];
      } else if k <= 1 + |a| {
        assert t[..k] == enter + a[..k - 1];
        DepthAppend(enter, a[..k - 1]);
      } else if k == 2 + |a| {
        assert t[..k] == enter + a + [ChangeToParentDirectory];
        DepthAppend(enter + a, [ChangeToParentDirectory]);
        assert [ChangeToParentDirectory][..0] == [];
      } else {
        assert t[..k] == t;
      }
    }
  }

  /** Every descent of a deletion is matched by exactly one return: it ends in
      the directory it started in and never climbs above it. */
  lemma {:induction false} PlanIsBalanced(f: Folder)
    decreases f
    ensures Balanced(Plan(f))
  {
    PlanEntriesAreBalanced(f.entries);
    assert [InitiateListParsing][..0] == [];
    assert Balanced([InitiateListParsing]);
    BalancedAppend([InitiateListParsing], PlanEntries(f.entries));
  }

  lemma {:induction false} PlanEntriesAreBalanced(es: seq<Entry>)
    decreases es
    ensures Balanced(PlanEntries(es))
  {
    if es != [] {
      PlanEntryIsBalanced(es[0]);
      PlanEntriesAreBalanced(es[1..]);
      BalancedAppend(PlanEntry(es[0]), PlanEntries(es[1..]));
    }
  }

  lemma {:induction false} PlanEntryIsBalanced(e: Entry)
    decreases e
    ensures Balanced(PlanEntry(e))
  {
    match e
    case NullEntry =>
    case FileEntry(n, _) =>
      if !IsDot(n) {
        assert [DeleteFile(n)][..0] == [];
      }
    case DirEntry(n, sub) =>
      if !IsDot(n) {
        PlanIsBalanced(sub);
        BalancedVisit(n, Plan(sub));
      }
  }

  /** Whatever the server answers, a deletion never climbs above the
      directory it started in. */
  lemma PurgeStaysBelowStart(f: Folder)
    ensures forall k :: 0 <= k <= |PurgeFolder(f).commands| ==> Depth(PurgeFolder(f).commands[..k]) >= 0
  {
    FolderFacts(f);
    PlanIsBalanced(f);
    var t := PurgeFolder(f).commands;
    forall k | 0 <= k <= |t|
      ensures Depth(t[..k]) >= 0
    {
      assert t[..k] == Plan(f)[..k];
    }
  }

  /** The three files of the directory below are deleted in listing order. */
  lemma ThreeFilesDeleted()
    ensures var ok: Reply<bool> := Value(true);
      var files := [FileEntry("file1", ok), FileEntry("file2", ok), FileEntry("anotherOne", ok)];
      PurgeFolder(Folder(files, ok, ok, ok, ok)) ==
        FolderStep(Done, [InitiateListParsing, DeleteFile("file1"), DeleteFile("file2"), DeleteFile("anotherOne")],
                   Folder([], ok, ok, ok, ok))
  {
    var ok: Reply<bool> := Value(true);
    var files := [FileEntry("file1", ok), FileEntry("file2", ok), FileEntry("anotherOne", ok)];
    assert PurgeEntries(files[2..]) == Step(Done, [DeleteFile("anotherOne")], []);
    assert PurgeEntries(files[1..]) == Step(Done, [DeleteFile("file2"), DeleteFile("anotherOne")], []);
    assert PurgeEntries(files) == Step(Done, [DeleteFile("file1"), DeleteFile("file2"), DeleteFile("anotherOne")], []);
  }

  /** Entering that directory, emptying it, leaving it and removing it. */
  lemma DirectoryVisited()
    ensures var ok: Reply<bool> := Value(true);
      var files := [FileEntry("file1", ok), FileEntry("file2", ok), FileEntry("anotherOne", ok)];
      PurgeEntry(DirEntry("directory", Folder(files, ok, ok, ok, ok))) ==
        Step(Done, [ChangeWorkingDirectory("directory"), InitiateListParsing,
                    DeleteFile("file1"), DeleteFile("file2"), DeleteFile("anotherOne"),
                    ChangeToParentDirectory, RemoveDirectory("directory")], [])
  {
    var ok: Reply<bool> := Value(true);
    var files := [FileEntry("file1", ok), FileEntry("file2", ok), FileEntry("anotherOne", ok)];
    var dir := Folder(files, ok, ok, ok, ok);
    ThreeFilesDeleted();
    var inner := PurgeFolder(dir);
    assert RmdReply(inner.after) == ok;
    assert Leave("directory", inner.after) == Step(Done, [ChangeToParentDirectory, RemoveDirectory("directory")], []);
  }

  /** A directory holding three files, listed after "." and "..", is
      emptied with these calls, in this order. */
  lemma DirectoryWithFiles()
    ensures var ok: Reply<bool> := Value(true);
      var files := [FileEntry("file1", ok), FileEntry("file2", ok), FileEntry("anotherOne", ok)];
      var dir := Folder(files, ok, ok, ok, ok);
      var root := Folder([DirEntry(".", dir), DirEntry("..", dir), DirEntry("directory", dir)], ok, ok, ok, ok);
      PurgeFolder(root) ==
        FolderStep(Done,
                   [InitiateListParsing, ChangeWorkingDirectory("directory"), InitiateListParsing,
                    DeleteFile("file1"), DeleteFile("file2"), DeleteFile("anotherOne"),
                    ChangeToParentDirectory, RemoveDirectory("directory")],
                   Folder([DirEntry(".", dir), DirEntry("..", dir)], ok, ok, ok, ok))
  {
    var ok: Reply<bool> := Value(true);
    var files := [FileEntry("file1", ok), FileEntry("file2", ok), FileEntry("anotherOne", ok)];
    var dir := Folder(files, ok, ok, ok, ok);
    var dots, rest := [DirEntry(".", dir), DirEntry("..", dir)], [DirEntry("directory", dir)];
    assert PurgeEntries(dots[1..]) == Step(Done, [], dots[1..]);
    assert PurgeEntries(dots) == Step(Done, [], dots);
    DirectoryVisited();
    var visit := PurgeEntry(DirEntry("directory", dir));
    assert PurgeEntries(rest) == Step(Done, visit.commands, []);
    PurgeEntriesAppend(dots, rest);
    assert dots + rest == [DirEntry(".", dir), DirEntry("..", dir), DirEntry("directory", dir)];
  }
}
