/** What the runner's effect phase did, in terms of its commands' own outcomes. */
module EffectOutcome {
  import opened Results
  import opened Text
  import opened Plans
  import opened Wire
  import opened FileTransaction
  import opened RunnerService
  import opened TransactionOutcome

  /** The files the k-th command finds: what the one before left. */
  function FilesAt(run: Commands, files: Files, k: nat): Files {
    if k == 0 then files else run(k - 1, FilesAt(run, files, k - 1)).files
  }

  function OutcomeAt(run: Commands, files: Files, k: nat): CommandOutcome { run(k, FilesAt(run, files, k)) }

  /** The command ran, in time, and exited with 0. */
  predicate Clean(o: CommandOutcome) { !o.runErr && !o.timedOut && o.exitCode == 0 }

  function Report(kind: string, c: Command, o: CommandOutcome): StepResult {
    StepResult(kind, c.executable, Int32(o.exitCode), if Clean(o) then "SUCCEEDED" else "FAILED")
  }

  /** Of the commands `cs`, the first of which is the `at`-th, those up to the first that is
      not clean have run, each on what the one before left and each with its report. */
  predicate RanUpTo(run: Commands, files: Files, kind: string, cs: seq<Command>, at: nat, q: Progress) {
    var n := |q.steps|;
    && at <= n <= at + |cs| && q.disk.files == FilesAt(run, files, n)
    && (forall k :: at <= k < n ==> q.steps[k] == Report(kind, cs[k - at], OutcomeAt(run, files, k)))
    && (forall k :: at <= k < n - 1 ==> Clean(OutcomeAt(run, files, k)))
    && (if q.failed.None? then n == at + |cs| && (n > at ==> Clean(OutcomeAt(run, files, n - 1)))
        else n > at && !Clean(OutcomeAt(run, files, n - 1)) && q.failed.value == cs[n - 1 - at].executable)
  }

  lemma RunOneIs(run: Commands, files: Files, kind: string, c: Command, p: Progress)
    requires p.disk.files == FilesAt(run, files, |p.steps|)
    ensures var p1, at := RunOne(run, kind, c, p), |p.steps|;
            && p1.disk.files == FilesAt(run, files, at + 1)
            && p1.steps == p.steps + [Report(kind, c, OutcomeAt(run, files, at))]
            && p1.failed == if Clean(OutcomeAt(run, files, at)) then None else Some(c.executable)
  {
  }

  lemma StoppedAtOnce(run: Commands, files: Files, kind: string, cs: seq<Command>, at: nat, q: Progress)
    requires cs != [] && |q.steps| == at + 1 && q.disk.files == FilesAt(run, files, at + 1)
    requires q.steps[at] == Report(kind, cs[0], OutcomeAt(run, files, at))
    requires !Clean(OutcomeAt(run, files, at)) && q.failed == Some(cs[0].executable)
    ensures RanUpTo(run, files, kind, cs, at, q)
  {
  }

  lemma {:induction false} RunAllRanUpTo(run: Commands, files: Files, kind: string, cs: seq<Command>, p: Progress)
    requires p.failed.None? && p.disk.files == FilesAt(run, files, |p.steps|)
    ensures RanUpTo(run, files, kind, cs, |p.steps|, RunAll(run, kind, cs, p))
    decreases |cs|
  {
    if cs != [] {
      var p1, at := RunOne(run, kind, cs[0], p), |p.steps|;
      RunOneIs(run, files, kind, cs[0], p);
      RunAllNext(run, kind, cs, p);
      if p1.failed.None? {
        RunAllRanUpTo(run, files, kind, cs[1..], p1);
        RunAllGrows(run, kind, cs[1..], p1);
        RanUpToCons(run, files, kind, cs, at, RunAll(run, kind, cs[1..], p1));
      } else {
        StoppedAtOnce(run, files, kind, cs, at, p1);
      }
    }
  }

  lemma RunAllNext(run: Commands, kind: string, cs: seq<Command>, p: Progress)
    requires cs != [] && p.failed.None?
    ensures var p1 := RunOne(run, kind, cs[0], p);
            RunAll(run, kind, cs, p) == if p1.failed.Some? then p1 else RunAll(run, kind, cs[1..], p1)
  {
  }

  lemma RanUpToCons(run: Commands, files: Files, kind: string, cs: seq<Command>, at: nat, q: Progress)
    requires cs != [] && RanUpTo(run, files, kind, cs[1..], at + 1, q)
    requires Clean(OutcomeAt(run, files, at)) && q.steps[at] == Report(kind, cs[0], OutcomeAt(run, files, at))
    ensures RanUpTo(run, files, kind, cs, at, q)
  {
    forall k | at <= k < |q.steps| ensures q.steps[k] == Report(kind, cs[k - at], OutcomeAt(run, files, k)) {
      assert k > at ==> cs[1..][k - at - 1] == cs[k - at];
    }
  }

  // -------------------------------------------------------- the whole phase

  function CommandCount(plan: Plan): nat { |Elems(plan.commands)| + |Elems(plan.verification)| }

  /** The k-th command of a plan, counting its commands and then its verification commands. */
  function CommandAt(plan: Plan, k: nat): Command
    requires k < CommandCount(plan)
  {
    var cs := Elems(plan.commands);
    if k < |cs| then cs[k] else Elems(plan.verification)[k - |cs|]
  }

  function KindAt(plan: Plan, k: nat): string { if k < |Elems(plan.commands)| then "command" else "verification" }

  predicate AllClean(run: Commands, files: Files, n: nat) {
    forall k :: 0 <= k < n ==> Clean(OutcomeAt(run, files, k))
  }

  /** The report of every command that ran. */
  predicate Reported(run: Commands, files: Files, plan: Plan, steps: seq<StepResult>) {
    && |steps| <= CommandCount(plan)
    && forall k :: 0 <= k < |steps| ==>
         steps[k] == Report(KindAt(plan, k), CommandAt(plan, k), OutcomeAt(run, files, k))
  }

  /** Every command ran and was clean; or they ran up to the first that was not, which the
      code names. */
  predicate Tells(run: Commands, files: Files, plan: Plan, r: Response) {
    var n := |r.steps|;
    && Reported(run, files, plan, r.steps)
    && (if AllClean(run, files, CommandCount(plan)) then
          r.status == "SUCCEEDED" && r.errorCode == "" && n == CommandCount(plan)
        else
          && r.status == "FAILED" && n > 0 && AllClean(run, files, n - 1) && !Clean(OutcomeAt(run, files, n - 1))
          && Names(r.errorCode, KindAt(plan, n - 1) + "_failed:" + CommandAt(plan, n - 1).executable))
  }

  lemma FirstPartReported(run: Commands, files: Files, plan: Plan, q: Progress)
    requires RanUpTo(run, files, "command", Elems(plan.commands), 0, q)
    ensures Reported(run, files, plan, q.steps)
  {
  }

  lemma SecondPartReported(run: Commands, files: Files, plan: Plan, p: Progress, q: Progress)
    requires |p.steps| == |Elems(plan.commands)| && Reported(run, files, plan, p.steps) && p.steps <= q.steps
    requires RanUpTo(run, files, "verification", Elems(plan.verification), |p.steps|, q)
    ensures Reported(run, files, plan, q.steps)
  {
    forall k | 0 <= k < |q.steps|
      ensures q.steps[k] == Report(KindAt(plan, k), CommandAt(plan, k), OutcomeAt(run, files, k))
    {
      assert k < |p.steps| ==> q.steps[k] == p.steps[k];
    }
  }

  lemma FirstPartClean(run: Commands, files: Files, kind: string, cs: seq<Command>, p: Progress)
    requires RanUpTo(run, files, kind, cs, 0, p) && p.failed.None?
    ensures |p.steps| == |cs| && AllClean(run, files, |cs|)
  {
  }

  lemma SecondPartClean(run: Commands, files: Files, kind: string, cs: seq<Command>, at: nat, q: Progress)
    requires AllClean(run, files, at) && RanUpTo(run, files, kind, cs, at, q)
    ensures q.failed.None? ==> |q.steps| == at + |cs| && AllClean(run, files, at + |cs|)
    ensures q.failed.Some? ==> |q.steps| > 0 && AllClean(run, files, |q.steps| - 1)
  {
  }

  lemma CodeOf(name: string)
    ensures "command" + "_failed:" + name == "command_failed:" + name
    ensures "verification" + "_failed:" + name == "verification_failed:" + name
  {
  }

  lemma CommandsStop(run: Commands, d: DiskState, undo: Option<seq<Snapshot>>, requestId: string, plan: Plan,
                     p: Progress)
    requires RanUpTo(run, d.files, "command", Elems(plan.commands), 0, p) && p.failed.Some?
    ensures var e := Fail(p.disk, undo, requestId, "command_failed:" + p.failed.value, p.steps);
            e.response.Some? && Tells(run, d.files, plan, e.response.value)
  {
    FirstPartReported(run, d.files, plan, p);
    CodeOf(p.failed.value);
    FailNames(p.disk, undo, requestId, "command_failed:" + p.failed.value, p.steps);
    StoppedOutcome(run, d.files, plan,
                   Fail(p.disk, undo, requestId, "command_failed:" + p.failed.value, p.steps).response.value);
  }

  lemma VerificationStops(run: Commands, d: DiskState, undo: Option<seq<Snapshot>>, requestId: string, plan: Plan,
                          q: Progress)
    requires Reported(run, d.files, plan, q.steps) && q.failed.Some?
    requires AllClean(run, d.files, |Elems(plan.commands)|)
    requires RanUpTo(run, d.files, "verification", Elems(plan.verification), |Elems(plan.commands)|, q)
    ensures var e := Fail(q.disk, undo, requestId, "verification_failed:" + q.failed.value, q.steps);
            e.response.Some? && Tells(run, d.files, plan, e.response.value)
  {
    SecondPartClean(run, d.files, "verification", Elems(plan.verification), |Elems(plan.commands)|, q);
    CodeOf(q.failed.value);
    FailNames(q.disk, undo, requestId, "verification_failed:" + q.failed.value, q.steps);
    StoppedOutcome(run, d.files, plan,
                   Fail(q.disk, undo, requestId, "verification_failed:" + q.failed.value, q.steps).response.value);
  }

  lemma RunBothOutcome(run: Commands, d: DiskState, undo: Option<seq<Snapshot>>, requestId: string, plan: Plan)
    ensures var e := RunBoth(run, d, undo, requestId, plan);
            && e.response.Some? && Tells(run, d.files, plan, e.response.value)
            && (e.response.value.status == "SUCCEEDED" ==> e.disk.files == FilesAt(run, d.files, CommandCount(plan)))
  {
    var cs, vs := Elems(plan.commands), Elems(plan.verification);
    var p1 := RunAll(run, "command", cs, Progress(d, [], None));
    RunAllRanUpTo(run, d.files, "command", cs, Progress(d, [], None));
    if p1.failed.Some? {
      CommandsStop(run, d, undo, requestId, plan, p1);
    } else {
      var p2 := RunAll(run, "verification", vs, p1);
      FirstPartReported(run, d.files, plan, p1);
      FirstPartClean(run, d.files, "command", cs, p1);
      RunAllRanUpTo(run, d.files, "verification", vs, p1);
      RunAllGrows(run, "verification", vs, p1);
      SecondPartReported(run, d.files, plan, p1, p2);
      if p2.failed.Some? {
        VerificationStops(run, d, undo, requestId, plan, p2);
      } else {
        SecondPartClean(run, d.files, "verification", vs, |cs|, p2);
      }
    }
  }

  lemma StoppedOutcome(run: Commands, files: Files, plan: Plan, r: Response)
    requires Reported(run, files, plan, r.steps) && r.status == "FAILED" && |r.steps| > 0
    requires AllClean(run, files, |r.steps| - 1) && !Clean(OutcomeAt(run, files, |r.steps| - 1))
    requires var k := |r.steps| - 1; Names(r.errorCode, KindAt(plan, k) + "_failed:" + CommandAt(plan, k).executable)
    ensures Tells(run, files, plan, r)
  {
  }

  /** The phase answers SUCCEEDED exactly when the transaction succeeded and every command,
      each on the files the one before left, ran, in time, and exited with 0; the files are
      then those the last one left. Otherwise it answers FAILED: with no step when the
      transaction failed, and else with a report for each command up to the first that was
      not clean, whose name is in the code. */
  lemma EffectsExactly(ws: Workspace, run: Commands, d: DiskState, requestId: string, plan: Plan)
    ensures var e, o := Effects(ws, run, d, requestId, plan), ApplySpec(ws, d, Elems(plan.patches));
            e.response.Some? ==>
            var r, applied := e.response.value, o.result.Ok?;
            && (r.status == "SUCCEEDED" <==> applied && AllClean(run, o.disk.files, CommandCount(plan)))
            && (r.status == "SUCCEEDED" ==> e.disk.files == FilesAt(run, o.disk.files, CommandCount(plan)))
            && (applied ==> Tells(run, o.disk.files, plan, r))
            && (!applied ==> r.status == "FAILED" && r.steps == [] && Names(r.errorCode, "patch_failed"))
  {
    var patches := Elems(plan.patches);
    var o := ApplySpec(ws, d, patches);
    if patches == [] {
      assert o.result.Ok? && o.disk == d;
      RunBothOutcome(run, d, None, requestId, plan);
    } else if o.result.Ok? {
      RunBothOutcome(run, o.disk, Some(o.snapshots), requestId, plan);
    }
  }

  // ------------------------------------------------ the mark of a failed rollback

  lemma {:induction false} RunAllKeepsFaults(run: Commands, kind: string, cs: seq<Command>, p: Progress)
    ensures RunAll(run, kind, cs, p).disk.faults == p.disk.faults
    decreases |cs|
  {
    if cs != [] && p.failed.None? {
      RunAllKeepsFaults(run, kind, cs[1..], RunOne(run, kind, cs[0], p));
    }
  }

  lemma PlainCode(name: string)
    ensures !HasPrefix("command_failed:" + name, ROLLBACK) && !HasPrefix("verification_failed:" + name, ROLLBACK)
    ensures !HasPrefix("patch_failed", ROLLBACK)
  {
    assert ("command_failed:" + name)[0] == 'c' && ("verification_failed:" + name)[0] == 'v';
    assert ROLLBACK[0] == 'r' && "patch_failed"[0] == 'p';
  }

  lemma FailMarks(d: DiskState, undo: Option<seq<Snapshot>>, requestId: string, code: string, steps: seq<StepResult>)
    requires !HasPrefix(code, ROLLBACK)
    ensures var e := Fail(d, undo, requestId, code, steps);
            && e.response.Some?
            && (HasPrefix(e.response.value.errorCode, ROLLBACK) <==> undo.Some? && !Undo(d, undo.value).1)
  {
    PrefixedCode(code);
  }

  lemma RunBothMarks(run: Commands, d: DiskState, undo: Option<seq<Snapshot>>, requestId: string, plan: Plan)
    ensures var r := RunBoth(run, d, undo, requestId, plan).response;
            && r.Some?
            && (r.value.status == "FAILED" ==>
                  var left := DiskState(FilesAt(run, d.files, |r.value.steps|), d.faults);
                  HasPrefix(r.value.errorCode, ROLLBACK) <==> undo.Some? && !Undo(left, undo.value).1)
  {
    var cs, vs := Elems(plan.commands), Elems(plan.verification);
    var p1 := RunAll(run, "command", cs, Progress(d, [], None));
    var p2 := RunAll(run, "verification", vs, p1);
    RunAllRanUpTo(run, d.files, "command", cs, Progress(d, [], None));
    RunAllKeepsFaults(run, "command", cs, Progress(d, [], None));
    if p1.failed.Some? {
      PlainCode(p1.failed.value);
      FailNames(p1.disk, undo, requestId, "command_failed:" + p1.failed.value, p1.steps);
      FailMarks(p1.disk, undo, requestId, "command_failed:" + p1.failed.value, p1.steps);
    } else {
      RunAllRanUpTo(run, d.files, "verification", vs, p1);
      RunAllKeepsFaults(run, "verification", vs, p1);
      if p2.failed.Some? {
        PlainCode(p2.failed.value);
        FailNames(p2.disk, undo, requestId, "verification_failed:" + p2.failed.value, p2.steps);
        FailMarks(p2.disk, undo, requestId, "verification_failed:" + p2.failed.value, p2.steps);
      }
    }
  }

  /** The restore of the plan's patches, on the disk its commands left, was not complete. */
  predicate RestoreFails(run: Commands, o: Outcome, plan: Plan, ran: nat) {
    Elems(plan.patches) != [] && !Undo(DiskState(FilesAt(run, o.disk.files, ran), o.disk.faults), o.snapshots).1
  }

  /** The code of a FAILED response bears the mark of a failed rollback exactly when undoing
      the patches failed: after a failed write, or after the command that failed. */
  lemma MarkExactly(ws: Workspace, run: Commands, d: DiskState, requestId: string, plan: Plan)
    ensures var r, o := Effects(ws, run, d, requestId, plan).response, ApplySpec(ws, d, Elems(plan.patches));
            r.Some? && r.value.status == "FAILED" ==>
              (HasPrefix(r.value.errorCode, ROLLBACK)
               <==> if o.result.Ok? then RestoreFails(run, o, plan, |r.value.steps|)
                    else o.result.error.RollbackFailed?)
  {
    var patches := Elems(plan.patches);
    var o := ApplySpec(ws, d, patches);
    if patches == [] {
      RunBothMarks(run, d, None, requestId, plan);
    } else if o.result.Ok? {
      RunBothMarks(run, o.disk, Some(o.snapshots), requestId, plan);
    } else {
      PlainCode("");
      PrefixedCode("patch_failed");
    }
  }
}
