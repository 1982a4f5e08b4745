/** The runner's one effectful RPC: claim the request, rebuild and verify the plan,
    apply the patches, run the commands, undo on failure, remember the response. */
module RunnerService {
  import opened Results
  import opened Text
  import opened Plans
  import opened Wire
  import Approval
  import Idempotency
  import opened FileTransaction

  /** What running one command does: it may change any file, and it reports an exit. */
  datatype CommandOutcome = CommandOutcome(files: Files, runErr: bool, timedOut: bool, exitCode: int)

  /** The outcome of the k-th command of a call on the files it finds. */
  type Commands = (nat, Files) -> CommandOutcome

  predicate Failed(o: CommandOutcome) { o.runErr || o.timedOut || o.exitCode != 0 }

  function StepOf(kind: string, c: Command, o: CommandOutcome): StepResult {
    StepResult(kind, c.executable, Int32(o.exitCode), if Failed(o) then "FAILED" else "SUCCEEDED")
  }

  /** Disk, steps so far, and the executable that failed, if one did. */
  datatype Progress = Progress(disk: DiskState, steps: seq<StepResult>, failed: Option<string>)

  function RunOne(run: Commands, kind: string, c: Command, p: Progress): Progress {
    var o := run(|p.steps|, p.disk.files);
    Progress(p.disk.(files := o.files), p.steps + [StepOf(kind, c, o)], if Failed(o) then Some(c.executable) else None)
  }

  function RunAll(run: Commands, kind: string, cs: seq<Command>, p: Progress): Progress
    decreases |cs|
  {
    if cs == [] || p.failed.Some? then p else RunAll(run, kind, cs[1..], RunOne(run, kind, cs[0], p))
  }

  /** A response, or the panic of the diff interpreter. */
  datatype Effect = Effect(disk: DiskState, response: Option<Response>)

  const ROLLBACK := "rollback_failed:"

  function Fail(d: DiskState, undo: Option<seq<Snapshot>>, requestId: string, code: string, steps: seq<StepResult>)
    : Effect
  {
    match undo
    case None => Effect(d, Some(Response(requestId, "FAILED", code, steps)))
    case Some(snaps) =>
      var (d', ok) := Undo(d, snaps);
      Effect(d', Some(Response(requestId, "FAILED", if ok then code else ROLLBACK + code, steps)))
  }

  function RunBoth(run: Commands, d: DiskState, undo: Option<seq<Snapshot>>, requestId: string, plan: Plan): Effect {
    var p1 := RunAll(run, "command", Elems(plan.commands), Progress(d, [], None));
    if p1.failed.Some? then Fail(p1.disk, undo, requestId, "command_failed:" + p1.failed.value, p1.steps)
    else
      var p2 := RunAll(run, "verification", Elems(plan.verification), p1);
      if p2.failed.Some? then Fail(p2.disk, undo, requestId, "verification_failed:" + p2.failed.value, p2.steps)
      else Effect(p2.disk, Some(Response(requestId, "SUCCEEDED", "", p2.steps)))
  }

  /** The effect phase: everything after the approval check. */
  function Effects(ws: Workspace, run: Commands, d: DiskState, requestId: string, plan: Plan): Effect {
    var patches := Elems(plan.patches);
    if patches == [] then RunBoth(run, d, None, requestId, plan)
    else
      var o := ApplySpec(ws, d, patches);
      match o.result
      case Ok(_) => RunBoth(run, o.disk, Some(o.snapshots), requestId, plan)
      case Err(e) =>
        if e == BadDiff(Diff.OutOfRange) then Effect(o.disk, None)
        else
          Effect(o.disk, Some(Response(requestId, "FAILED",
                                       if e.RollbackFailed? then ROLLBACK + "patch_failed" else "patch_failed", [])))
  }

  // ------------------------------------------------------------ properties

  predicate Patched(ws: Workspace, plan: Plan, path: string) {
    exists i :: 0 <= i < |Elems(plan.patches)| && ws.resolve(Elems(plan.patches)[i].path) == Some(path)
  }

  lemma PatchedIsRecorded(ws: Workspace, d: DiskState, plan: Plan, path: string)
    requires Patched(ws, plan, path) && PrepareAll(ws, d.files, Elems(plan.patches)).Ok?
    ensures path in Paths(Snapshots(PrepareAll(ws, d.files, Elems(plan.patches)).value))
  {
    var patches := Elems(plan.patches);
    var ps := PrepareAll(ws, d.files, patches).value;
    var i :| 0 <= i < |patches| && ws.resolve(patches[i].path) == Some(path);
    PreparedAt(ws, d.files, patches, i);
    PrepareIsExact(ws, d.files, patches[i]);
    assert Snapshots(ps)[i] in Snapshots(ps);
  }

  lemma PrefixedCode(code: string)
    ensures HasPrefix(ROLLBACK + code, ROLLBACK)
  {
  }

  /** Whatever the commands did to the files: after a FAILED response whose code does
      not say that the rollback failed, every patched path has the existence, content
      and mode it had before the call. */
  lemma FailedExecutionRestores(ws: Workspace, run: Commands, d: DiskState, requestId: string, plan: Plan, path: string)
    requires Patched(ws, plan, path)
    ensures var e := Effects(ws, run, d, requestId, plan);
            e.response.Some? && e.response.value.status == "FAILED" && !HasPrefix(e.response.value.errorCode, ROLLBACK)
            ==> Lookup(e.disk.files, path) == Lookup(d.files, path)
  {
    var patches := Elems(plan.patches);
    var o := ApplySpec(ws, d, patches);
    ApplyIsAllOrNothing(ws, d, patches);
    PrefixedCode("patch_failed");
    if o.result.Ok? {
      PatchedIsRecorded(ws, d, plan, path);
      var p1 := RunAll(run, "command", Elems(plan.commands), Progress(o.disk, [], None));
      var p2 := RunAll(run, "verification", Elems(plan.verification), p1);
      var last := if p1.failed.Some? then p1 else p2;
      var kind := if p1.failed.Some? then "command_failed:" else "verification_failed:";
      UndoRestores(last.disk, o.snapshots, d.files);
      if last.failed.Some? {
        PrefixedCode(kind + last.failed.value);
      }
    }
  }

  /** From position `at`, one SUCCEEDED step per command, in order. */
  predicate AllSucceeded(steps: seq<StepResult>, at: nat, kind: string, cs: seq<Command>) {
    && at + |cs| <= |steps|
    && forall i :: 0 <= i < |cs| ==> steps[at + i] == StepResult(kind, cs[i].executable, 0, "SUCCEEDED")
  }

  /** From position `at`, the steps stop with the first command that failed. */
  predicate StoppedAt(steps: seq<StepResult>, at: nat, kind: string, cs: seq<Command>, failed: string) {
    var n := |steps| - at - 1;
    && 0 <= n < |cs| && AllSucceeded(steps, at, kind, cs[..n])
    && failed == cs[n].executable == steps[at + n].name
    && steps[at + n].kind == kind && steps[at + n].status == "FAILED"
  }

  lemma {:induction false} RunAllGrows(run: Commands, kind: string, cs: seq<Command>, p: Progress)
    ensures p.steps <= RunAll(run, kind, cs, p).steps
    decreases |cs|
  {
    if cs != [] && p.failed.None? {
      RunAllGrows(run, kind, cs[1..], RunOne(run, kind, cs[0], p));
    }
  }

  lemma FirstStep(run: Commands, kind: string, cs: seq<Command>, p: Progress)
    requires cs != [] && p.failed.None? && RunOne(run, kind, cs[0], p).failed.None?
    ensures var steps := RunAll(run, kind, cs, p).steps;
            |p.steps| < |steps| && steps[|p.steps|] == StepResult(kind, cs[0].executable, 0, "SUCCEEDED")
    ensures RunAll(run, kind, cs, p) == RunAll(run, kind, cs[1..], RunOne(run, kind, cs[0], p))
  {
    var p1 := RunOne(run, kind, cs[0], p);
    RunAllGrows(run, kind, cs[1..], p1);
    assert Int32(0) == 0;
    assert RunAll(run, kind, cs[1..], p1).steps[|p.steps|] == p1.steps[|p.steps|];
  }

  lemma {:induction false} RunAllSucceeds(run: Commands, kind: string, cs: seq<Command>, p: Progress)
    requires p.failed.None? && RunAll(run, kind, cs, p).failed.None?
    ensures var steps := RunAll(run, kind, cs, p).steps;
            |steps| == |p.steps| + |cs| && AllSucceeded(steps, |p.steps|, kind, cs)
    decreases |cs|
  {
    if cs != [] {
      var p1 := RunOne(run, kind, cs[0], p);
      FirstStep(run, kind, cs, p);
      RunAllSucceeds(run, kind, cs[1..], p1);
      SucceededCons(RunAll(run, kind, cs, p).steps, |p.steps|, kind, cs);
    }
  }

  lemma {:induction false} RunAllStops(run: Commands, kind: string, cs: seq<Command>, p: Progress)
    requires p.failed.None? && RunAll(run, kind, cs, p).failed.Some?
    ensures StoppedAt(RunAll(run, kind, cs, p).steps, |p.steps|, kind, cs, RunAll(run, kind, cs, p).failed.value)
    decreases |cs|
  {
    var p1 := RunOne(run, kind, cs[0], p);
    if p1.failed.None? {
      FirstStep(run, kind, cs, p);
      RunAllStops(run, kind, cs[1..], p1);
      var q := RunAll(run, kind, cs, p);
      StoppedCons(q.steps, |p.steps|, kind, cs, q.failed.value);
    }
  }

  /** Every command succeeded with its own step, or the steps stop at the first that failed. */
  lemma RunAllSteps(run: Commands, kind: string, cs: seq<Command>, p: Progress)
    requires p.failed.None?
    ensures p.steps <= RunAll(run, kind, cs, p).steps
    ensures RunAll(run, kind, cs, p).failed.None? ==>
              && |RunAll(run, kind, cs, p).steps| == |p.steps| + |cs|
              && AllSucceeded(RunAll(run, kind, cs, p).steps, |p.steps|, kind, cs)
    ensures RunAll(run, kind, cs, p).failed.Some? ==>
              StoppedAt(RunAll(run, kind, cs, p).steps, |p.steps|, kind, cs, RunAll(run, kind, cs, p).failed.value)
  {
    RunAllGrows(run, kind, cs, p);
    if RunAll(run, kind, cs, p).failed.None? {
      RunAllSucceeds(run, kind, cs, p);
    } else {
      RunAllStops(run, kind, cs, p);
    }
  }

  lemma SucceededCons(steps: seq<StepResult>, at: nat, kind: string, cs: seq<Command>)
    requires cs != [] && at < |steps| && steps[at] == StepResult(kind, cs[0].executable, 0, "SUCCEEDED")
    requires AllSucceeded(steps, at + 1, kind, cs[1..])
    ensures AllSucceeded(steps, at, kind, cs)
  {
    forall i | 0 <= i < |cs| ensures steps[at + i] == StepResult(kind, cs[i].executable, 0, "SUCCEEDED") {
      if i > 0 {
        assert steps[at + 1 + (i - 1)] == StepResult(kind, cs[1..][i - 1].executable, 0, "SUCCEEDED");
      }
    }
  }

  lemma StoppedCons(steps: seq<StepResult>, at: nat, kind: string, cs: seq<Command>, failed: string)
    requires cs != [] && at < |steps| && steps[at] == StepResult(kind, cs[0].executable, 0, "SUCCEEDED")
    requires StoppedAt(steps, at + 1, kind, cs[1..], failed)
    ensures StoppedAt(steps, at, kind, cs, failed)
  {
    var n := |steps| - at - 1;
    assert cs[1..][..n - 1] == cs[..n][1..];
    SucceededCons(steps, at, kind, cs[..n]);
  }

  /** The code, or the code after the mark of a failed rollback. */
  predicate Names(errorCode: string, code: string) { errorCode == code || errorCode == ROLLBACK + code }

  /** SUCCEEDED with one step per command and then per verification command. */
  predicate RanEverything(r: Response, cs: seq<Command>, vs: seq<Command>) {
    && r.status == "SUCCEEDED" && |r.steps| == |cs| + |vs|
    && AllSucceeded(r.steps, 0, "command", cs) && AllSucceeded(r.steps, |cs|, "verification", vs)
  }

  /** FAILED with steps up to the first command that failed, which the code names. */
  ghost predicate Stopped(r: Response, cs: seq<Command>, vs: seq<Command>) {
    r.status == "FAILED" &&
    ((exists x :: StoppedAt(r.steps, 0, "command", cs, x) && Names(r.errorCode, "command_failed:" + x))
     || (AllSucceeded(r.steps, 0, "command", cs)
         && exists x :: StoppedAt(r.steps, |cs|, "verification", vs, x)
                        && Names(r.errorCode, "verification_failed:" + x)))
  }

  lemma FailNames(d: DiskState, undo: Option<seq<Snapshot>>, requestId: string, code: string, steps: seq<StepResult>)
    ensures var r := Fail(d, undo, requestId, code, steps).response;
            r.Some? && r.value.requestId == requestId && r.value.status == "FAILED" && r.value.steps == steps
            && Names(r.value.errorCode, code)
  {
  }

  lemma RunBothReports(run: Commands, d: DiskState, undo: Option<seq<Snapshot>>, requestId: string, plan: Plan)
    ensures var cs, vs := Elems(plan.commands), Elems(plan.verification);
            var r := RunBoth(run, d, undo, requestId, plan).response;
            r.Some? && r.value.requestId == requestId && (RanEverything(r.value, cs, vs) || Stopped(r.value, cs, vs))
  {
    var cs, vs := Elems(plan.commands), Elems(plan.verification);
    var p0 := Progress(d, [], None);
    var p1 := RunAll(run, "command", cs, p0);
    RunAllSteps(run, "command", cs, p0);
    if p1.failed.Some? {
      FailNames(p1.disk, undo, requestId, "command_failed:" + p1.failed.value, p1.steps);
    } else {
      VerificationReports(run, undo, requestId, cs, vs, p1);
    }
  }

  lemma VerificationReports(run: Commands, undo: Option<seq<Snapshot>>, requestId: string,
                            cs: seq<Command>, vs: seq<Command>, p1: Progress)
    requires p1.failed.None? && |p1.steps| == |cs| && AllSucceeded(p1.steps, 0, "command", cs)
    ensures var p2 := RunAll(run, "verification", vs, p1);
            var r := if p2.failed.None? then Response(requestId, "SUCCEEDED", "", p2.steps)
                     else
                       var code := "verification_failed:" + p2.failed.value;
                       Fail(p2.disk, undo, requestId, code, p2.steps).response.value;
            r.requestId == requestId && (RanEverything(r, cs, vs) || Stopped(r, cs, vs))
  {
    var p2 := RunAll(run, "verification", vs, p1);
    RunAllSteps(run, "verification", vs, p1);
    assert forall i :: 0 <= i < |p1.steps| ==> p2.steps[i] == p1.steps[i];
    if p2.failed.Some? {
      FailNames(p2.disk, undo, requestId, "verification_failed:" + p2.failed.value, p2.steps);
    }
  }

  /** SUCCEEDED means every command and then every verification command succeeded, each
      with its own step and in order; FAILED means that a patch failed before any
      command ran, or that the steps stop at the first command that failed, which the
      code names. */
  lemma SucceededRanEverything(ws: Workspace, run: Commands, d: DiskState, requestId: string, plan: Plan)
    ensures var e := Effects(ws, run, d, requestId, plan);
            e.response.Some? ==>
              var r, cs, vs := e.response.value, Elems(plan.commands), Elems(plan.verification);
              && r.requestId == requestId
              && (|| RanEverything(r, cs, vs)
                  || Stopped(r, cs, vs)
                  || (r.status == "FAILED" && r.steps == [] && Names(r.errorCode, "patch_failed")))
  {
    var patches := Elems(plan.patches);
    if patches == [] {
      RunBothReports(run, d, None, requestId, plan);
    } else {
      var o := ApplySpec(ws, d, patches);
      RunBothReports(run, o.disk, Some(o.snapshots), requestId, plan);
    }
  }

  // --------------------------------------------------------------- the RPC

  /** Crashed is no reply: the panic is not recovered and ends the process. Memory is then
      gone, and of what such a call leaves only the table and the disk remain. */
  datatype Reply = Answer(response: Response) | InvalidArgument | Aborted | PermissionDenied | Crashed

  type Table = Idempotency.Table

  /** What a call leaves: the store's memory and table, the disk, and the reply. */
  datatype CallOutcome = CallOutcome(memory: Idempotency.Memory, table: Option<Table>, disk: DiskState, reply: Reply)

  function Unclaimed(m: Idempotency.Memory, id: string, begun: Idempotency.Begun): Idempotency.Memory {
    if begun.Claimed? then Idempotency.Release(m, id) else m
  }

  /** From Begin's outcome on. */
  function Served(ws: Workspace, digest: Approval.Digest, run: Commands, m: Idempotency.Memory, table: Option<Table>,
                  begun: Idempotency.Begun, d: DiskState, req: Request): CallOutcome
  {
    var plan := Rebuild(req);
    if begun.InProgress? then CallOutcome(m, table, d, Aborted)
    else if !Approval.Verify(digest, req.approvalHash, req.runId, req.workspaceId, plan) then
      CallOutcome(Unclaimed(m, req.requestId, begun), table, d, PermissionDenied)
    else
      var e := Effects(ws, run, d, req.requestId, plan);
      if e.response.None? then CallOutcome(Unclaimed(m, req.requestId, begun), table, e.disk, Crashed)
      else
        var (m', table') := Idempotency.Finish(m, table, req.requestId, e.response.value);
        CallOutcome(Unclaimed(m', req.requestId, begun), table', e.disk, Answer(e.response.value))
  }

  /** A whole call; `others` are the rows other processes commit during Begin. */
  function Call(ws: Workspace, digest: Approval.Digest, run: Commands, m: Idempotency.Memory, table: Option<Table>,
                others: Table, d: DiskState, req: Request): CallOutcome
  {
    if req.requestId == "" then CallOutcome(m, table, d, InvalidArgument)
    else
      var (m1, got) := Idempotency.Get(m, table, req.requestId);
      if got.Some? then CallOutcome(m1, table, d, Answer(got.value))
      else
        match Idempotency.BeginLook(m1, table, req.requestId)
        case Decided(m2, begun) => Served(ws, digest, run, m2, table, begun, d, req)
        case Absent =>
          var between := if table.None? then None else Some(table.value + others);
          var (m2, table2, begun) := Idempotency.BeginInsert(m1, between, req.requestId);
          Served(ws, digest, run, m2, table2, begun, d, req)
  }

  /** The answer is in memory and, if there is a table, in its row. */
  predicate Recorded(o: CallOutcome, id: string) {
    && o.reply.Answer? && id in o.memory.done && o.memory.done[id] == o.reply.response
    && (o.table.Some? ==> id in o.table.value && o.table.value[id] == Idempotency.Complete(o.reply.response))
  }

  lemma ServedAnswerIsRecorded(ws: Workspace, digest: Approval.Digest, run: Commands, m: Idempotency.Memory,
                               table: Option<Table>, begun: Idempotency.Begun, d: DiskState, req: Request)
    ensures var o := Served(ws, digest, run, m, table, begun, d, req);
            o.reply.Answer? ==>
            && Approval.Verify(digest, req.approvalHash, req.runId, req.workspaceId, Rebuild(req))
            && Effects(ws, run, d, req.requestId, Rebuild(req)) == Effect(o.disk, Some(o.reply.response))
            && Recorded(o, req.requestId) && o.table.Some? == table.Some?
  {
  }

  lemma FreshAnswerIsServed(ws: Workspace, digest: Approval.Digest, run: Commands, m: Idempotency.Memory,
                            table: Option<Table>, others: Table, d: DiskState, req: Request)
    returns (m': Idempotency.Memory, table': Option<Table>, begun: Idempotency.Begun)
    requires Idempotency.Get(m, table, req.requestId).1.None?
    ensures table'.Some? == table.Some?
    ensures Call(ws, digest, run, m, table, others, d, req).reply.Answer? ==>
              req.requestId != ""
              && Call(ws, digest, run, m, table, others, d, req) == Served(ws, digest, run, m', table', begun, d, req)
  {
    var m1 := Idempotency.Get(m, table, req.requestId).0;
    match Idempotency.BeginLook(m1, table, req.requestId)
    case Decided(m2, b) => m', table', begun := m2, table, b;
    case Absent =>
      var between := if table.None? then None else Some(table.value + others);
      var (m2, t2, b) := Idempotency.BeginInsert(m1, between, req.requestId);
      m', table', begun := m2, t2, b;
  }

  lemma RememberedCallRepeats(ws: Workspace, digest: Approval.Digest, run: Commands, m: Idempotency.Memory,
                              table: Option<Table>, others: Table, d: DiskState, req: Request)
    requires req.requestId != "" && req.requestId in m.done
    ensures Call(ws, digest, run, m, table, others, d, req) == CallOutcome(m, table, d, Answer(m.done[req.requestId]))
  {
  }

  /** A fresh answer is the effect phase's, the plan was the approved one, it is recorded,
      and the same call again is answered with it and changes nothing. */
  lemma AnswersAreRemembered(ws: Workspace, digest: Approval.Digest, run: Commands, m: Idempotency.Memory,
                             table: Option<Table>, others: Table, d: DiskState, req: Request,
                             more: Table, again: Commands)
    ensures var o := Call(ws, digest, run, m, table, others, d, req);
            Idempotency.Get(m, table, req.requestId).1.None? && o.reply.Answer? ==>
            && Approval.Verify(digest, req.approvalHash, req.runId, req.workspaceId, Rebuild(req))
            && Effects(ws, run, d, req.requestId, Rebuild(req)) == Effect(o.disk, Some(o.reply.response))
            && Recorded(o, req.requestId) && o.table.Some? == table.Some?
            && Call(ws, digest, again, o.memory, o.table, more, o.disk, req) == o
  {
    var o := Call(ws, digest, run, m, table, others, d, req);
    if Idempotency.Get(m, table, req.requestId).1.None? && o.reply.Answer? {
      var m', table', begun := FreshAnswerIsServed(ws, digest, run, m, table, others, d, req);
      ServedAnswerIsRecorded(ws, digest, run, m', table', begun, d, req);
      RememberedCallRepeats(ws, digest, again, o.memory, o.table, more, o.disk, req);
    }
  }

  /** The effect phase panics exactly on a plan whose first patch that cannot be prepared
      has a lone file header for its diff, and has changed nothing then. */
  lemma EffectsPanic(ws: Workspace, run: Commands, d: DiskState, requestId: string, plan: Plan)
    ensures var e := Effects(ws, run, d, requestId, plan);
            && (e.response.None? <==> Panics(ws, d.files, Elems(plan.patches)))
            && (e.response.None? ==> e.disk == d)
  {
    var patches := Elems(plan.patches);
    ApplyPanics(ws, d, patches);
    if patches == [] || ApplySpec(ws, d, patches).result.Ok? {
      SucceededRanEverything(ws, run, d, requestId, plan);
      RunBothReports(run, d, None, requestId, plan);
      RunBothReports(run, ApplySpec(ws, d, patches).disk, Some(ApplySpec(ws, d, patches).snapshots), requestId, plan);
    }
  }

  /** What a call ends in from Begin on, with a claim or without one and whatever other
      calls did since its lookup: it ends in a panic exactly when it may go on, its
      approval is verified and its plan panics, and it is refused exactly when it may go on
      and the hash does not match. Either way disk and table are as it found them. */
  lemma ServedEndsExactly(ws: Workspace, digest: Approval.Digest, run: Commands, m: Idempotency.Memory,
                          table: Option<Table>, begun: Idempotency.Begun, d: DiskState, req: Request)
    ensures var o := Served(ws, digest, run, m, table, begun, d, req);
            var plan := Rebuild(req);
            var verified := Approval.Verify(digest, req.approvalHash, req.runId, req.workspaceId, plan);
            && (o.reply.Crashed? <==> !begun.InProgress? && verified && Panics(ws, d.files, Elems(plan.patches)))
            && (o.reply.PermissionDenied? <==> !begun.InProgress? && !verified)
            && (o.reply.Crashed? || o.reply.PermissionDenied? ==>
                  o.disk == d && o.table == table && o.memory == Unclaimed(m, req.requestId, begun))
  {
    EffectsPanic(ws, run, d, req.requestId, Rebuild(req));
  }

  /** Begin gave the call a claim of its own. */
  predicate Claimed(m: Idempotency.Memory, table: Option<Table>, others: Table, id: string) {
    && Idempotency.Get(m, table, id).1.None?
    && Idempotency.BeginLook(Idempotency.Get(m, table, id).0, table, id).Absent?
    && (table.None? || id !in table.value + others)
  }

  lemma ClaimedIsServed(ws: Workspace, digest: Approval.Digest, run: Commands, m: Idempotency.Memory,
                        table: Option<Table>, others: Table, d: DiskState, req: Request)
    requires req.requestId != "" && Claimed(m, table, others, req.requestId)
    ensures var id := req.requestId;
            var table' := if table.None? then None else Some((table.value + others)[id := Idempotency.Running]);
            Call(ws, digest, run, m, table, others, d, req)
            == Served(ws, digest, run, m.(running := m.running + {id}), table', Idempotency.Claimed, d, req)
  {
  }

  lemma UnclaimedIsNotServed(ws: Workspace, digest: Approval.Digest, run: Commands, m: Idempotency.Memory,
                             table: Option<Table>, others: Table, d: DiskState, req: Request)
    requires req.requestId == "" || !Claimed(m, table, others, req.requestId)
    ensures var r := Call(ws, digest, run, m, table, others, d, req).reply;
            || r.InvalidArgument? || r.Aborted?
            || (r.Answer? && Idempotency.Get(m, table, req.requestId).1 == Some(r.response))
  {
  }

  /** The row the claim installed is still running. */
  predicate LeftRunning(table: Option<Table>, id: string) {
    table.Some? ==> id in table.value && table.value[id].Running?
  }

  /** A call whose lookup and Begin no other call of its process separates ends in a panic
      exactly when it has a claim, its approval is verified and its plan panics. It has
      changed no file and leaves its row running. */
  lemma CrashesExactly(ws: Workspace, digest: Approval.Digest, run: Commands, m: Idempotency.Memory,
                       table: Option<Table>, others: Table, d: DiskState, req: Request)
    ensures var o := Call(ws, digest, run, m, table, others, d, req);
            && (o.reply.Crashed? <==>
                  && req.requestId != "" && Claimed(m, table, others, req.requestId)
                  && Approval.Verify(digest, req.approvalHash, req.runId, req.workspaceId, Rebuild(req))
                  && Panics(ws, d.files, Elems(Rebuild(req).patches)))
            && (o.reply.Crashed? ==> o.disk == d && LeftRunning(o.table, req.requestId))
  {
    EffectsPanic(ws, run, d, req.requestId, Rebuild(req));
    if req.requestId != "" && Claimed(m, table, others, req.requestId) {
      ClaimedIsServed(ws, digest, run, m, table, others, d, req);
    } else {
      UnclaimedIsNotServed(ws, digest, run, m, table, others, d, req);
    }
  }

  /** A call whose lookup and Begin no other call of its process separates is refused for
      its approval exactly when it has a claim and the hash does not match. It has changed
      no file and leaves its row running. */
  lemma RefusesExactly(ws: Workspace, digest: Approval.Digest, run: Commands, m: Idempotency.Memory,
                       table: Option<Table>, others: Table, d: DiskState, req: Request)
    ensures var o := Call(ws, digest, run, m, table, others, d, req);
            && (o.reply.PermissionDenied? <==>
                  && req.requestId != "" && Claimed(m, table, others, req.requestId)
                  && !Approval.Verify(digest, req.approvalHash, req.runId, req.workspaceId, Rebuild(req)))
            && (o.reply.PermissionDenied? ==> o.disk == d && LeftRunning(o.table, req.requestId))
  {
    if req.requestId != "" && Claimed(m, table, others, req.requestId) {
      ClaimedIsServed(ws, digest, run, m, table, others, d, req);
    } else {
      UnclaimedIsNotServed(ws, digest, run, m, table, others, d, req);
    }
  }

  /** The response held for the id: in memory, or else in a completed row. */
  function Held(m: Idempotency.Memory, table: Option<Table>, id: string): Option<Response> {
    if id in m.done then Some(m.done[id])
    else if table.Some? && id in table.value && table.value[id].Complete? then Some(table.value[id].response)
    else None
  }

  /** The process is at work on the id, or the table has, or gets in time, a row for it. */
  predicate Taken(m: Idempotency.Memory, table: Option<Table>, others: Table, id: string) {
    id in m.running || (table.Some? && (id in table.value || id in others))
  }

  /** What such a call is answered, in every case: with the response held for its id; in
      progress when the id is taken; refused when the hash does not match; or, but for a
      panic, with what its effect phase answers. Only an effect phase changes the disk. */
  lemma RepliesExactly(ws: Workspace, digest: Approval.Digest, run: Commands, m: Idempotency.Memory,
                       table: Option<Table>, others: Table, d: DiskState, req: Request)
    ensures var o, id := Call(ws, digest, run, m, table, others, d, req), req.requestId;
            var held, e := Held(m, table, id), Effects(ws, run, d, id, Rebuild(req));
            if id == "" then o == CallOutcome(m, table, d, InvalidArgument)
            else if held.Some? then
              o == CallOutcome(m.(done := m.done[id := held.value]), table, d, Answer(held.value))
            else if Taken(m, table, others, id) then o.reply == Aborted && o.disk == d && o.memory == m
            else if !Approval.Verify(digest, req.approvalHash, req.runId, req.workspaceId, Rebuild(req)) then
              o.reply == PermissionDenied && o.disk == d
            else o.disk == e.disk && o.reply == (if e.response.None? then Crashed else Answer(e.response.value))
  {
    if Held(m, table, req.requestId).Some? {
      assert m.done[req.requestId := Held(m, table, req.requestId).value] == m.done || req.requestId !in m.done;
    }
  }

  /** A claim ends with its call, whatever the call is answered; and without a table the next
      call with the id of a refused one is served like a first one. */
  lemma ClaimEndsWithCall(ws: Workspace, digest: Approval.Digest, run: Commands, m: Idempotency.Memory,
                          table: Option<Table>, others: Table, d: DiskState, req: Request, req': Request)
    requires !Taken(m, table, others, req.requestId) && Held(m, table, req.requestId).None?
    ensures var o := Call(ws, digest, run, m, table, others, d, req);
            && o.memory.running == m.running
            && (o.reply.PermissionDenied? && table.None? && req'.requestId == req.requestId ==>
                  Call(ws, digest, run, o.memory, None, others, o.disk, req')
                  == Call(ws, digest, run, m, None, others, d, req'))
  {
    var id := req.requestId;
    assert m.running + {id} - {id} == m.running;
  }

  /** A running row answers whoever asks: a process without a remembered response for the
      id is told that the execution is in progress, and the row stays as it is. */
  lemma RunningRowBlocks(ws: Workspace, digest: Approval.Digest, run: Commands, m: Idempotency.Memory,
                         rows: Table, others: Table, d: DiskState, req: Request)
    requires req.requestId != "" && req.requestId in rows && rows[req.requestId].Running? && req.requestId !in m.done
    ensures Call(ws, digest, run, m, Some(rows), others, d, req) == CallOutcome(m, Some(rows), d, Aborted)
  {
  }

  /** A refused approval leaves its row running: the next call with the id, by whatever
      process without a remembered response, is told that the execution is in progress. */
  lemma RefusedApprovalBlocks(ws: Workspace, digest: Approval.Digest, run: Commands, m: Idempotency.Memory,
                              rows: Table, others: Table, d: DiskState, req: Request,
                              memory: Idempotency.Memory, more: Table, req': Request)
    requires Call(ws, digest, run, m, Some(rows), others, d, req).reply.PermissionDenied?
    requires req'.requestId == req.requestId && req.requestId !in memory.done
    ensures !Approval.Verify(digest, req.approvalHash, req.runId, req.workspaceId, Rebuild(req))
    ensures var o := Call(ws, digest, run, m, Some(rows), others, d, req);
            && o.table.Some?
            && Call(ws, digest, run, memory, o.table, more, o.disk, req')
               == CallOutcome(memory, o.table, o.disk, Aborted)
  {
    RefusesExactly(ws, digest, run, m, Some(rows), others, d, req);
    ClaimedIsServed(ws, digest, run, m, Some(rows), others, d, req);
    var o := Call(ws, digest, run, m, Some(rows), others, d, req);
    RunningRowBlocks(ws, digest, run, memory, o.table.value, more, o.disk, req');
  }

  class Service {
    const ws: Workspace
    const digest: Approval.Digest
    const disk: Disk
    const store: Idempotency.Store

    constructor (ws: Workspace, digest: Approval.Digest, disk: Disk, store: Idempotency.Store)
      ensures this.ws == ws && this.digest == digest && this.disk == disk && this.store == store
    {
      this.ws, this.digest, this.disk, this.store := ws, digest, disk, store;
    }

    /** `others` are rows other processes commit during Begin; `run` is what commands do. */
    method ExecuteApprovedPlan(req: Request, others: Table, run: Commands) returns (r: Reply)
      modifies store, store.db, disk
      ensures CallOutcome(store.Mem(), store.Tab(), disk.State(), r)
           == Call(ws, digest, run, old(store.Mem()), old(store.Tab()), others, old(disk.State()), req)
    {
      if req.requestId == "" {
        return InvalidArgument;
      }
      var saved := store.Lookup(req.requestId);
      if saved.Some? {
        return Answer(saved.value);
      }
      var begun := store.Claim(req.requestId, others);
      r := Serve(req, begun, run);
    }

    method Serve(req: Request, begun: Idempotency.Begun, run: Commands) returns (r: Reply)
      modifies store, store.db, disk
      ensures CallOutcome(store.Mem(), store.Tab(), disk.State(), r)
           == Served(ws, digest, run, old(store.Mem()), old(store.Tab()), begun, old(disk.State()), req)
    {
      if begun.InProgress? {
        return Aborted;
      }
      var plan := RebuildPlan(req);
      if !Approval.Verify(digest, req.approvalHash, req.runId, req.workspaceId, plan) {
        EndClaim(req.requestId, begun);
        return PermissionDenied;
      }
      var response := PerformEffects(req.requestId, plan, run);
      if response.None? {
        EndClaim(req.requestId, begun);
        return Crashed;
      }
      store.Record(req.requestId, response.value);
      EndClaim(req.requestId, begun);
      return Answer(response.value);
    }

    /** The deferred release: only a claim has something to release. */
    method EndClaim(id: string, begun: Idempotency.Begun)
      modifies store
      ensures store.Tab() == old(store.Tab()) && store.Mem() == Unclaimed(old(store.Mem()), id, begun)
    {
      if begun.Claimed? {
        store.EndClaim(id);
      }
    }

    method PerformEffects(requestId: string, plan: Plan, run: Commands) returns (response: Option<Response>)
      modifies disk
      ensures Effect(disk.State(), response) == Effects(ws, run, old(disk.State()), requestId, plan)
      ensures response.None? ==> disk.State() == old(disk.State())
    {
      var undo: Transaction? := null;
      if Elems(plan.patches) != [] {
        var tx := new Transaction(ws, disk);
        var applied := tx.Apply(Elems(plan.patches));
        if applied.Err? {
          if applied.error == BadDiff(Diff.OutOfRange) {
            return None;
          }
          var code := "patch_failed";
          if applied.error.RollbackFailed? {
            code := ROLLBACK + code;
          }
          return Some(Response(requestId, "FAILED", code, []));
        }
        undo := tx;
      }
      var steps: seq<StepResult>, failed: Option<string>;
      steps, failed := RunCommands(run, "command", Elems(plan.commands), []);
      var kind := "command_failed:";
      if failed.None? {
        steps, failed := RunCommands(run, "verification", Elems(plan.verification), steps);
        kind := "verification_failed:";
      }
      if failed.None? {
        return Some(Response(requestId, "SUCCEEDED", "", steps));
      }
      var code := kind + failed.value;
      if undo != null {
        var ok := undo.Restore();
        if !ok {
          code := ROLLBACK + code;
        }
      }
      return Some(Response(requestId, "FAILED", code, steps));
    }

    /** Runs commands in order until one fails. */
    method RunCommands(run: Commands, kind: string, cs: seq<Command>, before: seq<StepResult>)
      returns (steps: seq<StepResult>, failed: Option<string>)
      modifies disk
      ensures Progress(disk.State(), steps, failed) == RunAll(run, kind, cs, Progress(old(disk.State()), before, None))
    {
      steps, failed := before, None;
      var i := 0;
      assert cs[0..] == cs;
      while i < |cs|
        invariant 0 <= i <= |cs|
        invariant RunAll(run, kind, cs, Progress(old(disk.State()), before, None))
               == RunAll(run, kind, cs[i..], Progress(disk.State(), steps, None))
      {
        assert cs[i..][1..] == cs[i + 1..];
        var o := run(|steps|, disk.files);
        disk.files := o.files;
        steps := steps + [StepOf(kind, cs[i], o)];
        if Failed(o) {
          failed := Some(cs[i].executable);
          return;
        }
        i := i + 1;
      }
    }
  }
}
