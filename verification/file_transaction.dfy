/** The runner's multi-file write: all patches are computed from the files as they
    are, then written one by one, and undone in reverse order when a write fails. */
module FileTransaction {
  import opened Results
  import opened Plans
  import Diff = UnifiedDiff

  datatype File = File(content: string, mode: int)

  type Files = map<string, File>

  const DEFAULT_MODE: int := 0x180   // 0o600

  function Lookup(files: Files, path: string): Option<File> {
    if path in files then Some(files[path]) else None
  }

  lemma SameLookups(a: Files, b: Files)
    requires forall p :: Lookup(a, p) == Lookup(b, p)
    ensures a == b
  {
    forall p ensures (p in a <==> p in b) && (p in a ==> a[p] == b[p]) {
      assert Lookup(a, p) == Lookup(b, p);
    }
  }

  /** A workspace directory. Each atomic replacement or removal takes the next entry
      of `faults`: true makes it fail and change nothing. */
  class Disk {
    var files: Files
    var faults: seq<bool>

    constructor (files: Files, faults: seq<bool>)
      ensures this.files == files && this.faults == faults
    {
      this.files, this.faults := files, faults;
    }

    function State(): DiskState
      reads this
    {
      DiskState(files, faults)
    }

    method NextFault() returns (fails: bool)
      modifies this`faults
      ensures State() == Tick(old(State())).0 && fails == Tick(old(State())).1
    {
      fails := faults != [] && faults[0];
      faults := if faults == [] then [] else faults[1..];
    }

    /** Write to a temporary file, set its mode, rename it over the path. */
    method ReplaceFile(path: string, content: string, mode: int) returns (ok: bool)
      modifies this
      ensures State() == Replace(old(State()), path, File(content, mode)).0
      ensures ok == Replace(old(State()), path, File(content, mode)).1
    {
      var fails := NextFault();
      if fails {
        return false;
      }
      files := files[path := File(content, mode)];
      return true;
    }

    /** Removal; a missing file is not an error. */
    method Remove(path: string) returns (ok: bool)
      modifies this
      ensures State() == Delete(old(State()), path).0
      ensures ok == Delete(old(State()), path).1
    {
      if path !in files {
        return true;
      }
      var fails := NextFault();
      if fails {
        return false;
      }
      files := files - {path};
      return true;
    }
  }

  datatype DiskState = DiskState(files: Files, faults: seq<bool>)

  function Tick(d: DiskState): (DiskState, bool) {
    (d.(faults := if d.faults == [] then [] else d.faults[1..]), d.faults != [] && d.faults[0])
  }

  function Replace(d: DiskState, path: string, f: File): (DiskState, bool) {
    var (next, fails) := Tick(d);
    if fails then (next, false) else (next.(files := d.files[path := f]), true)
  }

  function Delete(d: DiskState, path: string): (DiskState, bool) {
    if path !in d.files then (d, true)
    else
      var (next, fails) := Tick(d);
      if fails then (next, false) else (next.(files := d.files - {path}), true)
  }

  // ---------------------------------------------------------- preparation

  datatype TxError =
    | Refused                      // the path guard refused the path
    | Unreadable                   // the old file could not be read
    | BeforeHashMismatch
    | BadDiff(cause: Diff.DiffError)
    | WriteFailed
    | RollbackFailed

  datatype Snapshot = Snapshot(path: string, existed: bool, mode: int, content: string)

  datatype Write = Write(path: string, file: File)

  /** What the transaction asks of its surroundings: where a relative path leads, which
      paths cannot be read, and the content hash. */
  datatype Workspace = Workspace(resolve: string -> Option<string>, unreadable: set<string>, hash: string -> string)

  datatype Prepared = Prepared(write: Write, snapshot: Snapshot)

  function Prepare(ws: Workspace, files: Files, p: Patch): Result<Prepared, TxError> {
    match ws.resolve(p.path)
    case None => Err(Refused)
    case Some(path) =>
      var before := Lookup(files, path);
      var content := if before.Some? then before.value.content else "";
      var mode := if before.Some? then before.value.mode else DEFAULT_MODE;
      if path in ws.unreadable then Err(Unreadable)
      else if p.beforeHash != "" && ws.hash(content) != p.beforeHash then Err(BeforeHashMismatch)
      else
        match Diff.Apply(content, p.unifiedDiff)
        case Err(e) => Err(BadDiff(e))
        case Ok(data) => Ok(Prepared(Write(path, File(data, mode)), Snapshot(path, before.Some?, mode, content)))
  }

  function PrepareAll(ws: Workspace, files: Files, patches: seq<Patch>): (r: Result<seq<Prepared>, TxError>)
    ensures r.Ok? ==> |r.value| == |patches|
  {
    if patches == [] then Ok([])
    else
      match PrepareAll(ws, files, patches[..|patches| - 1])
      case Err(e) => Err(e)
      case Ok(ps) =>
        match Prepare(ws, files, patches[|patches| - 1])
        case Err(e) => Err(e)
        case Ok(p) => Ok(ps + [p])
  }

  function Writes(ps: seq<Prepared>): (r: seq<Write>)
    ensures |r| == |ps| && forall i :: 0 <= i < |ps| ==> r[i] == ps[i].write
  {
    if ps == [] then [] else Writes(ps[..|ps| - 1]) + [ps[|ps| - 1].write]
  }

  function Snapshots(ps: seq<Prepared>): (r: seq<Snapshot>)
    ensures |r| == |ps| && forall i :: 0 <= i < |ps| ==> r[i] == ps[i].snapshot
  {
    if ps == [] then [] else Snapshots(ps[..|ps| - 1]) + [ps[|ps| - 1].snapshot]
  }

  /** The snapshots recorded until the first patch that cannot be prepared. */
  function SnapshotsTaken(ws: Workspace, files: Files, patches: seq<Patch>): seq<Snapshot>
    decreases |patches|
  {
    match PrepareAll(ws, files, patches)
    case Ok(ps) => Snapshots(ps)
    case Err(_) => SnapshotsTaken(ws, files, patches[..|patches| - 1])
  }

  // -------------------------------------------------------------- restore

  function UndoOne(d: DiskState, s: Snapshot): (DiskState, bool) {
    if s.existed then Replace(d, s.path, File(s.content, s.mode)) else Delete(d, s.path)
  }

  /** Every snapshot put back, last first; the flag tells whether any step failed. */
  function Undo(d: DiskState, snaps: seq<Snapshot>): (DiskState, bool)
    decreases |snaps|
  {
    if snaps == [] then (d, true)
    else
      var (d1, ok1) := UndoOne(d, snaps[|snaps| - 1]);
      var (d2, ok2) := Undo(d1, snaps[..|snaps| - 1]);
      (d2, ok1 && ok2)
  }

  /** The snapshots record these files. */
  predicate Records(snaps: seq<Snapshot>, files: Files) {
    forall s :: s in snaps ==>
      Lookup(files, s.path) == if s.existed then Some(File(s.content, s.mode)) else None
  }

  function Paths(snaps: seq<Snapshot>): (r: set<string>)
    ensures forall s :: s in snaps ==> s.path in r
  {
    set s | s in snaps :: s.path
  }

  lemma PathsOfLast(snaps: seq<Snapshot>)
    requires snaps != []
    ensures Paths(snaps) == Paths(snaps[..|snaps| - 1]) + {snaps[|snaps| - 1].path}
  {
    assert snaps == snaps[..|snaps| - 1] + [snaps[|snaps| - 1]];
  }

  lemma {:induction false} UndoKeepsOthers(d: DiskState, snaps: seq<Snapshot>, p: string)
    requires p !in Paths(snaps)
    ensures Lookup(Undo(d, snaps).0.files, p) == Lookup(d.files, p)
    decreases |snaps|
  {
    if snaps != [] {
      PathsOfLast(snaps);
      UndoKeepsOthers(UndoOne(d, snaps[|snaps| - 1]).0, snaps[..|snaps| - 1], p);
    }
  }

  lemma UndoOneRestores(d: DiskState, s: Snapshot)
    requires UndoOne(d, s).1
    ensures Lookup(UndoOne(d, s).0.files, s.path) == if s.existed then Some(File(s.content, s.mode)) else None
  {
  }

  lemma {:induction false} UndoRestoresOne(d: DiskState, snaps: seq<Snapshot>, base: Files, p: string)
    requires Records(snaps, base) && p in Paths(snaps) && Undo(d, snaps).1
    ensures Lookup(Undo(d, snaps).0.files, p) == Lookup(base, p)
    decreases |snaps|
  {
    var last, init := snaps[|snaps| - 1], snaps[..|snaps| - 1];
    var d1 := UndoOne(d, last).0;
    PathsOfLast(snaps);
    assert last in snaps && forall s :: s in init ==> s in snaps;
    if p in Paths(init) {
      UndoRestoresOne(d1, init, base, p);
    } else {
      UndoOneRestores(d, last);
      UndoKeepsOthers(d1, init, p);
    }
  }

  /** Restoring touches only recorded paths, and when no step failed each of them is
      again what was recorded, whatever happened to the disk in between. */
  lemma UndoRestores(d: DiskState, snaps: seq<Snapshot>, base: Files)
    requires Records(snaps, base)
    ensures forall p :: p !in Paths(snaps) ==> Lookup(Undo(d, snaps).0.files, p) == Lookup(d.files, p)
    ensures Undo(d, snaps).1 ==>
              forall p :: p in Paths(snaps) ==> Lookup(Undo(d, snaps).0.files, p) == Lookup(base, p)
  {
    forall p | p !in Paths(snaps) ensures Lookup(Undo(d, snaps).0.files, p) == Lookup(d.files, p) {
      UndoKeepsOthers(d, snaps, p);
    }
    if Undo(d, snaps).1 {
      forall p | p in Paths(snaps) ensures Lookup(Undo(d, snaps).0.files, p) == Lookup(base, p) {
        UndoRestoresOne(d, snaps, base, p);
      }
    }
  }

  // ---------------------------------------------------------------- write

  /** The writes in order up to the first that fails. */
  function WriteAll(d: DiskState, writes: seq<Write>): (DiskState, bool)
    decreases |writes|
  {
    if writes == [] then (d, true)
    else
      var (d1, ok) := Replace(d, writes[0].path, writes[0].file);
      if !ok then (d1, false) else WriteAll(d1, writes[1..])
  }

  /** The file the last write to a path leaves there. */
  function LastWrite(writes: seq<Write>, path: string): Option<File> {
    if writes == [] then None
    else if writes[|writes| - 1].path == path then Some(writes[|writes| - 1].file)
    else LastWrite(writes[..|writes| - 1], path)
  }

  lemma {:induction false} LastWriteCons(w: Write, rest: seq<Write>, path: string)
    ensures LastWrite([w] + rest, path)
         == if LastWrite(rest, path).Some? then LastWrite(rest, path)
            else if w.path == path then Some(w.file) else None
  {
    var all := [w] + rest;
    if rest == [] {
      assert all[..0] == [];
    } else {
      assert all[..|all| - 1] == [w] + rest[..|rest| - 1];
      LastWriteCons(w, rest[..|rest| - 1], path);
    }
  }

  lemma {:induction false} WritesLand(d: DiskState, writes: seq<Write>, path: string)
    ensures WriteAll(d, writes).1 ==>
              Lookup(WriteAll(d, writes).0.files, path)
              == if LastWrite(writes, path).Some? then LastWrite(writes, path) else Lookup(d.files, path)
    ensures (forall w :: w in writes ==> w.path != path) ==>
              Lookup(WriteAll(d, writes).0.files, path) == Lookup(d.files, path)
    decreases |writes|
  {
    if writes != [] {
      var w, rest := writes[0], writes[1..];
      assert writes == [w] + rest && w in writes && forall v :: v in rest ==> v in writes;
      LastWriteCons(w, rest, path);
      WritesLand(Replace(d, w.path, w.file).0, rest, path);
    }
  }

  // ---------------------------------------------------------- the whole step

  datatype Outcome = Outcome(disk: DiskState, snapshots: seq<Snapshot>, result: Result<(), TxError>)

  function ApplySpec(ws: Workspace, d: DiskState, patches: seq<Patch>): Outcome {
    match PrepareAll(ws, d.files, patches)
    case Err(e) => Outcome(d, SnapshotsTaken(ws, d.files, patches), Err(e))
    case Ok(ps) =>
      var snaps := Snapshots(ps);
      var (d1, ok) := WriteAll(d, Writes(ps));
      if ok then Outcome(d1, snaps, Ok(()))
      else
        var (d2, restored) := Undo(d1, snaps);
        Outcome(d2, snaps, Err(if restored then WriteFailed else RollbackFailed))
  }

  lemma {:induction false} PreparedAt(ws: Workspace, files: Files, patches: seq<Patch>, i: nat)
    requires PrepareAll(ws, files, patches).Ok? && i < |patches|
    ensures Prepare(ws, files, patches[i]) == Ok(PrepareAll(ws, files, patches).value[i])
  {
    if i < |patches| - 1 {
      PreparedAt(ws, files, patches[..|patches| - 1], i);
    }
  }

  lemma PrepareIsExact(ws: Workspace, files: Files, p: Patch)
    requires Prepare(ws, files, p).Ok?
    ensures var w, s := Prepare(ws, files, p).value.write, Prepare(ws, files, p).value.snapshot;
            && ws.resolve(p.path) == Some(w.path) && s.path == w.path
            && Lookup(files, s.path) == (if s.existed then Some(File(s.content, s.mode)) else None)
            && Computed(files, p, w)
  {
  }

  /** A write holds what the patch makes of the file as it was, with the file's mode. */
  predicate Computed(files: Files, p: Patch, w: Write) {
    var before := Lookup(files, w.path);
    && Diff.Apply(if before.Some? then before.value.content else "", p.unifiedDiff) == Ok(w.file.content)
    && w.file.mode == (if before.Some? then before.value.mode else DEFAULT_MODE)
  }

  lemma PreparedRecords(ws: Workspace, files: Files, patches: seq<Patch>)
    requires PrepareAll(ws, files, patches).Ok?
    ensures Records(Snapshots(PrepareAll(ws, files, patches).value), files)
  {
    var ps := PrepareAll(ws, files, patches).value;
    forall s | s in Snapshots(ps)
      ensures Lookup(files, s.path) == if s.existed then Some(File(s.content, s.mode)) else None
    {
      var i :| 0 <= i < |ps| && ps[i].snapshot == s;
      PreparedAt(ws, files, patches, i);
      PrepareIsExact(ws, files, patches[i]);
    }
  }

  lemma {:induction false} TakenRecords(ws: Workspace, files: Files, patches: seq<Patch>)
    ensures Records(SnapshotsTaken(ws, files, patches), files)
    decreases |patches|
  {
    if PrepareAll(ws, files, patches).Ok? {
      PreparedRecords(ws, files, patches);
    } else {
      TakenRecords(ws, files, patches[..|patches| - 1]);
    }
  }

  /** Success leaves at every path the output of the last patch for it, each output
      computed from the files before the transaction, and nothing else changed. */
  lemma ApplyWritesEveryPatch(ws: Workspace, d: DiskState, patches: seq<Patch>)
    requires ApplySpec(ws, d, patches).result.Ok?
    ensures PrepareAll(ws, d.files, patches).Ok?
    ensures var writes := Writes(PrepareAll(ws, d.files, patches).value);
            && |writes| == |patches|
            && (forall i :: 0 <= i < |patches| ==>
                  ws.resolve(patches[i].path) == Some(writes[i].path) && Computed(d.files, patches[i], writes[i]))
            && (forall p :: Lookup(ApplySpec(ws, d, patches).disk.files, p)
                         == if LastWrite(writes, p).Some? then LastWrite(writes, p) else Lookup(d.files, p))
  {
    var ps := PrepareAll(ws, d.files, patches).value;
    var writes := Writes(ps);
    forall i | 0 <= i < |patches|
      ensures ws.resolve(patches[i].path) == Some(writes[i].path) && Computed(d.files, patches[i], writes[i])
    {
      PreparedAt(ws, d.files, patches, i);
      PrepareIsExact(ws, d.files, patches[i]);
    }
    forall p
      ensures Lookup(WriteAll(d, writes).0.files, p)
           == if LastWrite(writes, p).Some? then LastWrite(writes, p) else Lookup(d.files, p)
    {
      WritesLand(d, writes, p);
    }
  }

  lemma PrepareInit(ws: Workspace, files: Files, patches: seq<Patch>)
    requires patches != [] && PrepareAll(ws, files, patches).Ok?
    ensures var n := |patches| - 1;
            PrepareAll(ws, files, patches[..n]) == Ok(PrepareAll(ws, files, patches).value[..n])
  {
    var ps := PrepareAll(ws, files, patches[..|patches| - 1]).value;
    assert PrepareAll(ws, files, patches).value[..|ps|] == ps;
  }

  lemma FirstOfFirst<T>(s: seq<T>, m: nat, n: nat)
    requires n <= m <= |s|
    ensures s[..m][..n] == s[..n] && s[..|s|] == s
  {
  }

  lemma {:induction false} PrepareFirst(ws: Workspace, files: Files, patches: seq<Patch>, n: nat)
    requires PrepareAll(ws, files, patches).Ok? && n <= |patches|
    ensures PrepareAll(ws, files, patches[..n]) == Ok(PrepareAll(ws, files, patches).value[..n])
  {
    var ps := PrepareAll(ws, files, patches).value;
    if n == |patches| {
      FirstOfFirst(patches, n, n);
      FirstOfFirst(ps, n, n);
    } else {
      var m := |patches| - 1;
      PrepareInit(ws, files, patches);
      PrepareFirst(ws, files, patches[..m], n);
      FirstOfFirst(patches, m, n);
      FirstOfFirst(ps, m, n);
    }
  }

  lemma WritesFirst(ps: seq<Prepared>, n: nat)
    requires n <= |ps|
    ensures Writes(ps[..n]) == Writes(ps)[..n]
  {
  }

  lemma PreparedIsApplied(ws: Workspace, d: DiskState, patches: seq<Patch>, ps: seq<Prepared>)
    requires PrepareAll(ws, d.files, patches) == Ok(ps) && WriteAll(d, Writes(ps)).1
    ensures ApplySpec(ws, d, patches).result.Ok? && ApplySpec(ws, d, patches).disk == WriteAll(d, Writes(ps)).0
  {
  }

  /** A transaction that stops between two writes has done what the transaction of its
      first patches does. */
  lemma FirstWrites(ws: Workspace, d: DiskState, patches: seq<Patch>, n: nat)
    requires PrepareAll(ws, d.files, patches).Ok? && n <= |patches|
    requires WriteAll(d, Writes(PrepareAll(ws, d.files, patches).value)[..n]).1
    ensures var o := ApplySpec(ws, d, patches[..n]);
            && o.result.Ok?
            && o.disk == WriteAll(d, Writes(PrepareAll(ws, d.files, patches).value)[..n]).0
  {
    var ps := PrepareAll(ws, d.files, patches).value;
    PrepareFirst(ws, d.files, patches, n);
    WritesFirst(ps, n);
    PreparedIsApplied(ws, d, patches[..n], ps[..n]);
  }

  /** Every error but a failed rollback leaves every file's existence, content and mode
      as they were, with duplicate paths and a write failing anywhere; a failed
      rollback still touches no path the patches do not name. */
  lemma ApplyIsAllOrNothing(ws: Workspace, d: DiskState, patches: seq<Patch>)
    ensures var o := ApplySpec(ws, d, patches);
            && (o.result.Err? && o.result.error != RollbackFailed ==> o.disk.files == d.files)
            && (forall p :: p !in Paths(o.snapshots) ==> Lookup(o.disk.files, p) == Lookup(d.files, p))
            && Records(o.snapshots, d.files)
  {
    var o := ApplySpec(ws, d, patches);
    TakenRecords(ws, d.files, patches);
    if PrepareAll(ws, d.files, patches).Ok? {
      var ps := PrepareAll(ws, d.files, patches).value;
      PreparedRecords(ws, d.files, patches);
      var snaps, writes := Snapshots(ps), Writes(ps);
      var (d1, ok) := WriteAll(d, writes);
      forall p | p !in Paths(snaps) ensures Lookup(d1.files, p) == Lookup(d.files, p) {
        forall w | w in writes ensures w.path != p {
          var i :| 0 <= i < |ps| && ps[i].write == w;
          PreparedAt(ws, d.files, patches, i);
          PrepareIsExact(ws, d.files, patches[i]);
          assert snaps[i] in snaps;
        }
        WritesLand(d, writes, p);
      }
      UndoRestores(d1, snaps, d.files);
      if o.result.Err? && o.result.error != RollbackFailed {
        SameLookups(o.disk.files, d.files);
      }
    }
  }

  /** The diff of this patch is read: nothing refuses the patch before. */
  predicate DiffIsRead(ws: Workspace, files: Files, p: Patch) {
    ws.resolve(p.path).Some? &&
    var path := ws.resolve(p.path).value;
    && path !in ws.unreadable
    && (p.beforeHash == "" || ws.hash(if path in files then files[path].content else "") == p.beforeHash)
  }

  lemma PreparePanics(ws: Workspace, files: Files, p: Patch)
    ensures Prepare(ws, files, p) == Err(BadDiff(Diff.OutOfRange))
            <==> DiffIsRead(ws, files, p) && Diff.LoneHeader(p.unifiedDiff)
  {
    if ws.resolve(p.path).Some? {
      var before := Lookup(files, ws.resolve(p.path).value);
      Diff.PanicsExactly(if before.Some? then before.value.content else "", p.unifiedDiff);
    }
  }

  /** Some patch has a lone file header for its diff, nothing refuses it before its diff is
      read, and every patch before it can be prepared. */
  predicate Panics(ws: Workspace, files: Files, patches: seq<Patch>) {
    patches != [] &&
    var init, last := patches[..|patches| - 1], patches[|patches| - 1];
    || Panics(ws, files, init)
    || (PrepareAll(ws, files, init).Ok? && DiffIsRead(ws, files, last) && Diff.LoneHeader(last.unifiedDiff))
  }

  lemma {:induction false} PrepareAllPanics(ws: Workspace, files: Files, patches: seq<Patch>)
    ensures PrepareAll(ws, files, patches) == Err(BadDiff(Diff.OutOfRange)) <==> Panics(ws, files, patches)
    decreases |patches|
  {
    if patches != [] {
      PrepareAllPanics(ws, files, patches[..|patches| - 1]);
      PreparePanics(ws, files, patches[|patches| - 1]);
    }
  }

  /** A transaction panics exactly at such a patch, and before it wrote anything. */
  lemma ApplyPanics(ws: Workspace, d: DiskState, patches: seq<Patch>)
    ensures var o := ApplySpec(ws, d, patches);
            && (o.result == Err(BadDiff(Diff.OutOfRange)) <==> Panics(ws, d.files, patches))
            && (Panics(ws, d.files, patches) ==> o.disk == d)
  {
    PrepareAllPanics(ws, d.files, patches);
  }

  class Transaction {
    const ws: Workspace
    const disk: Disk
    var snapshots: seq<Snapshot>

    constructor (ws: Workspace, disk: Disk)
      ensures this.ws == ws && this.disk == disk && snapshots == []
    {
      this.ws, this.disk, snapshots := ws, disk, [];
    }

    method Apply(patches: seq<Patch>) returns (r: Result<(), TxError>)
      modifies this, disk
      ensures disk.State() == ApplySpec(ws, old(disk.State()), patches).disk
      ensures r == ApplySpec(ws, old(disk.State()), patches).result
      ensures snapshots == ApplySpec(ws, old(disk.State()), patches).snapshots
    {
      var prepared := ReadAndCompute(patches);
      if prepared.Err? {
        return Err(prepared.error);
      }
      var writes := prepared.value;
      assert writes[0..] == writes;
      for i := 0 to |writes|
        invariant snapshots == old(ApplySpec(ws, disk.State(), patches).snapshots)
        invariant WriteAll(old(disk.State()), writes) == WriteAll(disk.State(), writes[i..])
      {
        assert writes[i..][1..] == writes[i + 1..];
        var ok := disk.ReplaceFile(writes[i].path, writes[i].file.content, writes[i].file.mode);
        if !ok {
          var restored := Restore();
          return Err(if restored then WriteFailed else RollbackFailed);
        }
      }
      return Ok(());
    }

    /** The first loop: nothing is written while patches are read and computed. */
    method ReadAndCompute(patches: seq<Patch>) returns (r: Result<seq<Write>, TxError>)
      modifies this
      ensures var all := PrepareAll(ws, disk.files, patches);
              r == if all.Err? then Err(all.error) else Ok(Writes(all.value))
      ensures snapshots == SnapshotsTaken(ws, disk.files, patches)
    {
      snapshots := [];
      var prepared: seq<Write> := [];
      ghost var ps: seq<Prepared> := [];
      for i := 0 to |patches|
        invariant PrepareAll(ws, disk.files, patches[..i]) == Ok(ps)
        invariant snapshots == Snapshots(ps) && prepared == Writes(ps)
      {
        PrepareNext(ws, disk.files, patches, i, ps);
        var one := PrepareOne(patches[i]);
        if one.Err? {
          return Err(one.error);
        }
        prepared := prepared + [one.value.write];
        snapshots := snapshots + [one.value.snapshot];
        ps := ps + [one.value];
      }
      assert patches[..|patches|] == patches;
      return Ok(prepared);
    }

    /** One round of that loop. */
    method PrepareOne(p: Patch) returns (r: Result<Prepared, TxError>)
      ensures r == Prepare(ws, disk.files, p)
    {
      var path := ws.resolve(p.path);
      if path.None? {
        return Err(Refused);
      }
      var existed := path.value in disk.files;
      var content := if existed then disk.files[path.value].content else "";
      var mode := if existed then disk.files[path.value].mode else DEFAULT_MODE;
      if path.value in ws.unreadable {
        return Err(Unreadable);
      }
      if p.beforeHash != "" && ws.hash(content) != p.beforeHash {
        return Err(BeforeHashMismatch);
      }
      var data := Diff.ApplyUnifiedDiff(content, p.unifiedDiff);
      if data.Err? {
        return Err(BadDiff(data.error));
      }
      return Ok(Prepared(Write(path.value, File(data.value, mode)), Snapshot(path.value, existed, mode, content)));
    }

    method Restore() returns (ok: bool)
      modifies disk
      ensures disk.State() == Undo(old(disk.State()), snapshots).0
      ensures ok == Undo(old(disk.State()), snapshots).1
    {
      ok := true;
      var i := |snapshots|;
      assert snapshots[..i] == snapshots;
      while i > 0
        invariant 0 <= i <= |snapshots|
        invariant Undo(old(disk.State()), snapshots).0 == Undo(disk.State(), snapshots[..i]).0
        invariant Undo(old(disk.State()), snapshots).1 == (ok && Undo(disk.State(), snapshots[..i]).1)
      {
        i := i - 1;
        var s := snapshots[i];
        UndoNext(disk.State(), snapshots, i);
        var done: bool;
        if !s.existed {
          done := disk.Remove(s.path);
        } else {
          done := disk.ReplaceFile(s.path, s.content, s.mode);
        }
        ok := ok && done;
      }
    }
  }

  lemma {:induction false} PrepareStops(ws: Workspace, files: Files, patches: seq<Patch>, n: nat)
    requires n <= |patches| && PrepareAll(ws, files, patches[..n]).Err?
    ensures PrepareAll(ws, files, patches) == PrepareAll(ws, files, patches[..n])
    ensures SnapshotsTaken(ws, files, patches) == SnapshotsTaken(ws, files, patches[..n])
  {
    if n == |patches| {
      assert patches[..n] == patches;
    } else {
      assert patches[..|patches| - 1][..n] == patches[..n];
      PrepareStops(ws, files, patches[..|patches| - 1], n);
    }
  }

  /** The next patch is prepared, or it decides the outcome. */
  lemma PrepareNext(ws: Workspace, files: Files, patches: seq<Patch>, i: nat, ps: seq<Prepared>)
    requires i < |patches| && PrepareAll(ws, files, patches[..i]) == Ok(ps)
    ensures var one := Prepare(ws, files, patches[i]);
            && (one.Ok? ==> PrepareAll(ws, files, patches[..i + 1]) == Ok(ps + [one.value]))
            && (one.Err? ==>
                  && PrepareAll(ws, files, patches) == Err(one.error)
                  && SnapshotsTaken(ws, files, patches) == Snapshots(ps))
  {
    assert patches[..i + 1][..i] == patches[..i];
    if Prepare(ws, files, patches[i]).Err? {
      PrepareStops(ws, files, patches, i + 1);
    }
  }

  lemma UndoNext(d: DiskState, snaps: seq<Snapshot>, i: nat)
    requires i < |snaps|
    ensures var (d1, ok1) := UndoOne(d, snaps[i]);
            Undo(d, snaps[..i + 1]) == (Undo(d1, snaps[..i]).0, ok1 && Undo(d1, snaps[..i]).1)
  {
    assert snaps[..i + 1][..i] == snaps[..i];
  }
}
