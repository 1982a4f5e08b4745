/** When a transaction succeeds, and what each of its errors says. */
module TransactionOutcome {
  import opened Results
  import opened Plans
  import opened FileTransaction
  import Diff = UnifiedDiff

  function Content(files: Files, path: string): string { if path in files then files[path].content else "" }

  /** The patch names no hash, or the hash of the file as it is. */
  predicate HashMatches(ws: Workspace, files: Files, p: Patch, path: string) {
    p.beforeHash == "" || p.beforeHash == ws.hash(Content(files, path))
  }

  /** The path leads into the workspace to a readable file, the hash is not stale and the
      diff applies. */
  predicate Preparable(ws: Workspace, files: Files, p: Patch) {
    && ws.resolve(p.path).Some? && ws.resolve(p.path).value !in ws.unreadable
    && HashMatches(ws, files, p, ws.resolve(p.path).value)
    && Diff.Apply(Content(files, ws.resolve(p.path).value), p.unifiedDiff).Ok?
  }

  /** The first of these conditions that the patch does not meet. */
  predicate Hindered(ws: Workspace, files: Files, p: Patch, e: TxError) {
    var path := ws.resolve(p.path);
    match e
    case Refused => path.None?
    case Unreadable => path.Some? && path.value in ws.unreadable
    case BeforeHashMismatch =>
      path.Some? && path.value !in ws.unreadable && !HashMatches(ws, files, p, path.value)
    case BadDiff(cause) =>
      && path.Some? && path.value !in ws.unreadable && HashMatches(ws, files, p, path.value)
      && Diff.Apply(Content(files, path.value), p.unifiedDiff) == Err(cause)
    case _ => false
  }

  lemma PreparesExactly(ws: Workspace, files: Files, p: Patch)
    ensures Prepare(ws, files, p).Ok? <==> Preparable(ws, files, p)
    ensures forall e :: Prepare(ws, files, p) == Err(e) <==> Hindered(ws, files, p, e)
  {
    if ws.resolve(p.path).Some? {
      var path := ws.resolve(p.path).value;
      var before := Lookup(files, path);
      assert Content(files, path) == if before.Some? then before.value.content else "";
    }
  }

  /** This patch is hindered, and none before it. */
  predicate FirstHindered(ws: Workspace, files: Files, patches: seq<Patch>, i: nat, e: TxError) {
    && i < |patches| && Hindered(ws, files, patches[i], e)
    && forall j :: 0 <= j < i ==> Preparable(ws, files, patches[j])
  }

  predicate AllPreparable(ws: Workspace, files: Files, patches: seq<Patch>) {
    forall i :: 0 <= i < |patches| ==> Preparable(ws, files, patches[i])
  }

  lemma AllPreparableLast(ws: Workspace, files: Files, patches: seq<Patch>)
    requires patches != []
    ensures AllPreparable(ws, files, patches)
            <==> AllPreparable(ws, files, patches[..|patches| - 1]) && Preparable(ws, files, patches[|patches| - 1])
  {
    var n := |patches| - 1;
    assert forall i :: 0 <= i < n ==> patches[..n][i] == patches[i];
  }

  lemma {:induction false} AllPrepareExactly(ws: Workspace, files: Files, patches: seq<Patch>)
    ensures PrepareAll(ws, files, patches).Ok? <==> AllPreparable(ws, files, patches)
    decreases |patches|
  {
    if patches != [] {
      AllPrepareExactly(ws, files, patches[..|patches| - 1]);
      PreparesExactly(ws, files, patches[|patches| - 1]);
      AllPreparableLast(ws, files, patches);
    }
  }

  predicate SomeHindered(ws: Workspace, files: Files, patches: seq<Patch>, e: TxError) {
    exists i :: 0 <= i < |patches| && FirstHindered(ws, files, patches, i, e)
  }

  lemma HinderedInFront(ws: Workspace, files: Files, patches: seq<Patch>, n: nat, i: nat, e: TxError)
    requires i < n <= |patches|
    ensures FirstHindered(ws, files, patches[..n], i, e) <==> FirstHindered(ws, files, patches, i, e)
  {
    assert forall j :: 0 <= j <= i ==> patches[..n][j] == patches[j];
  }

  lemma HinderedAtLast(ws: Workspace, files: Files, patches: seq<Patch>, e: TxError)
    requires patches != []
    ensures var n := |patches| - 1;
            FirstHindered(ws, files, patches, n, e)
            <==> AllPreparable(ws, files, patches[..n]) && Hindered(ws, files, patches[n], e)
  {
    assert forall j :: 0 <= j < |patches| - 1 ==> patches[..|patches| - 1][j] == patches[j];
  }

  lemma HinderedLast(ws: Workspace, files: Files, patches: seq<Patch>, e: TxError)
    requires patches != []
    ensures var n := |patches| - 1;
            SomeHindered(ws, files, patches, e)
            <==> SomeHindered(ws, files, patches[..n], e) || FirstHindered(ws, files, patches, n, e)
  {
    var n := |patches| - 1;
    if SomeHindered(ws, files, patches, e) {
      var i :| 0 <= i < |patches| && FirstHindered(ws, files, patches, i, e);
      if i < n {
        HinderedInFront(ws, files, patches, n, i, e);
      }
    }
    if SomeHindered(ws, files, patches[..n], e) {
      var i :| 0 <= i < n && FirstHindered(ws, files, patches[..n], i, e);
      HinderedInFront(ws, files, patches, n, i, e);
    }
  }

  lemma {:induction false} FirstHinderedDecides(ws: Workspace, files: Files, patches: seq<Patch>, e: TxError)
    ensures PrepareAll(ws, files, patches) == Err(e) <==> SomeHindered(ws, files, patches, e)
    decreases |patches|
  {
    if patches != [] {
      var init := patches[..|patches| - 1];
      FirstHinderedDecides(ws, files, init, e);
      AllPrepareExactly(ws, files, init);
      PreparesExactly(ws, files, patches[|patches| - 1]);
      HinderedLast(ws, files, patches, e);
      HinderedAtLast(ws, files, patches, e);
      if PrepareAll(ws, files, init).Ok? {
        NoneHindered(ws, files, init, e);
      }
    }
  }

  lemma NoneHindered(ws: Workspace, files: Files, patches: seq<Patch>, e: TxError)
    requires AllPreparable(ws, files, patches)
    ensures !SomeHindered(ws, files, patches, e)
  {
  }

  /** None of the next n replacements or removals fails. */
  predicate Faultless(faults: seq<bool>, n: nat) { forall k :: 0 <= k < n && k < |faults| ==> !faults[k] }

  lemma {:induction false} WritesExactly(d: DiskState, writes: seq<Write>)
    ensures WriteAll(d, writes).1 <==> Faultless(d.faults, |writes|)
    decreases |writes|
  {
    if writes != [] {
      var d1 := Replace(d, writes[0].path, writes[0].file).0;
      WritesExactly(d1, writes[1..]);
      if d.faults != [] {
        assert d1.faults == d.faults[1..];
        assert Faultless(d.faults, |writes|) <==> !d.faults[0] && Faultless(d.faults[1..], |writes| - 1) by {
          if Faultless(d.faults, |writes|) {
            assert forall k :: 0 <= k < |d.faults| - 1 ==> d.faults[1..][k] == d.faults[k + 1];
          } else {
            var k :| 0 <= k < |writes| && k < |d.faults| && d.faults[k];
            assert k > 0 ==> d.faults[1..][k - 1] == d.faults[k];
          }
        }
      }
    }
  }

  /** A transaction succeeds exactly when every patch leads to a readable file of the
      workspace whose hash it names or does not ask for, every diff applies, and no write
      fails. */
  lemma SucceedsExactly(ws: Workspace, d: DiskState, patches: seq<Patch>)
    ensures ApplySpec(ws, d, patches).result.Ok?
            <==> AllPreparable(ws, d.files, patches) && Faultless(d.faults, |patches|)
  {
    AllPrepareExactly(ws, d.files, patches);
    if PrepareAll(ws, d.files, patches).Ok? {
      WritesExactly(d, Writes(PrepareAll(ws, d.files, patches).value));
    }
  }

  /** Every error but those of writing is that of the first patch that is hindered, and then
      the disk is as it was; an error of writing comes exactly when no patch is hindered
      and a write fails. */
  lemma FailsExactly(ws: Workspace, d: DiskState, patches: seq<Patch>, e: TxError)
    ensures var o := ApplySpec(ws, d, patches);
            && (!e.WriteFailed? && !e.RollbackFailed? ==>
                  (o.result == Err(e) <==> SomeHindered(ws, d.files, patches, e)))
            && (o.result == Err(WriteFailed) || o.result == Err(RollbackFailed)
                <==> AllPreparable(ws, d.files, patches) && !Faultless(d.faults, |patches|))
            && (o.disk == d || AllPreparable(ws, d.files, patches))
  {
    SucceedsExactly(ws, d, patches);
    AllPrepareExactly(ws, d.files, patches);
    FirstHinderedDecides(ws, d.files, patches, e);
    NoWriteErrorBefore(ws, d.files, patches);
    ApplyCases(ws, d, patches);
  }

  lemma NoWriteErrorBefore(ws: Workspace, files: Files, patches: seq<Patch>)
    ensures PrepareAll(ws, files, patches).Err? ==>
              var e := PrepareAll(ws, files, patches).error; !e.WriteFailed? && !e.RollbackFailed?
  {
    FirstHinderedDecides(ws, files, patches, WriteFailed);
    FirstHinderedDecides(ws, files, patches, RollbackFailed);
  }

  lemma ApplyCases(ws: Workspace, d: DiskState, patches: seq<Patch>)
    ensures var o, all := ApplySpec(ws, d, patches), PrepareAll(ws, d.files, patches);
            && (all.Err? ==> o.result == Err(all.error) && o.disk == d)
            && (all.Ok? ==> o.result.Ok? || o.result == Err(WriteFailed) || o.result == Err(RollbackFailed))
  {
  }

  // ------------------------------------------------------ a failed rollback

  lemma {:induction false} UndoWithoutFaults(d: DiskState, snaps: seq<Snapshot>)
    requires forall k :: 0 <= k < |d.faults| ==> !d.faults[k]
    ensures Undo(d, snaps).1
    decreases |snaps|
  {
    if snaps != [] {
      UndoWithoutFaults(UndoOne(d, snaps[|snaps| - 1]).0, snaps[..|snaps| - 1]);
    }
  }

  lemma {:induction false} FaultsLeft(d: DiskState, writes: seq<Write>)
    requires !WriteAll(d, writes).1
    ensures var left := WriteAll(d, writes).0.faults;
            |left| < |d.faults| && d.faults[|d.faults| - |left| - 1] && left == d.faults[|d.faults| - |left|..]
    decreases |writes|
  {
    var (d1, ok) := Replace(d, writes[0].path, writes[0].file);
    if ok {
      FaultsLeft(d1, writes[1..]);
    }
  }

  /** A rollback fails only when a second operation on the disk fails after the write. */
  lemma RollbackNeedsTwoFaults(ws: Workspace, d: DiskState, patches: seq<Patch>)
    requires ApplySpec(ws, d, patches).result == Err(RollbackFailed)
    ensures exists j, k :: 0 <= j < k < |d.faults| && d.faults[j] && d.faults[k]
  {
    AllPrepareExactly(ws, d.files, patches);
    FirstHinderedDecides(ws, d.files, patches, RollbackFailed);
    var ps := PrepareAll(ws, d.files, patches).value;
    var d1 := WriteAll(d, Writes(ps)).0;
    FaultsLeft(d, Writes(ps));
    if forall k :: 0 <= k < |d1.faults| ==> !d1.faults[k] {
      UndoWithoutFaults(d1, Snapshots(ps));
    }
    var k :| 0 <= k < |d1.faults| && d1.faults[k];
    var j := |d.faults| - |d1.faults| - 1;
    assert d.faults[j + 1 + k] == d1.faults[k];
  }

  function FaultCount(faults: seq<bool>): nat {
    if faults == [] then 0 else (if faults[0] then 1 else 0) + FaultCount(faults[1..])
  }

  /** The recorded paths that are not as recorded. */
  function Lost(snaps: seq<Snapshot>, base: Files, files: Files): set<string> {
    set p | p in Paths(snaps) && Lookup(files, p) != Lookup(base, p)
  }

  lemma UndoOneCounts(d: DiskState, s: Snapshot, base: Files)
    requires Records([s], base)
    ensures var (d1, ok) := UndoOne(d, s);
            && (ok ==>
                  Lookup(d1.files, s.path) == Lookup(base, s.path) && FaultCount(d1.faults) <= FaultCount(d.faults))
            && (!ok ==> FaultCount(d1.faults) + 1 == FaultCount(d.faults))
  {
    assert s in [s];
  }

  /** A restore goes on after a step that fails: it loses no more paths than steps failed. */
  lemma {:induction false} RestoresAllButFaults(d: DiskState, snaps: seq<Snapshot>, base: Files)
    requires Records(snaps, base)
    ensures |Lost(snaps, base, Undo(d, snaps).0.files)| <= FaultCount(d.faults)
    decreases |snaps|
  {
    if snaps != [] {
      var last, init := snaps[|snaps| - 1], snaps[..|snaps| - 1];
      var (d1, ok) := UndoOne(d, last);
      var files := Undo(d1, init).0.files;
      assert last in snaps && forall s :: s in init ==> s in snaps;
      UndoOneCounts(d, last, base);
      PathsOfLast(snaps);
      RestoresAllButFaults(d1, init, base);
      if last.path !in Paths(init) {
        UndoKeepsOthers(d1, init, last.path);
      }
      if ok {
        assert Lost(snaps, base, files) == Lost(init, base, files);
      } else {
        assert Lost(snaps, base, files) <= Lost(init, base, files) + {last.path};
        NoMore(Lost(snaps, base, files), Lost(init, base, files), last.path);
      }
    }
  }

  lemma NoMore(a: set<string>, b: set<string>, p: string)
    requires a <= b + {p}
    ensures |a| <= |b| + 1
  {
    var rest := b + {p} - a;
    assert b + {p} == a + rest;
    assert |b + {p}| == |a| + |rest|;
  }
}
