/** The lifecycle with the disk underneath: the runner answers with what the effect phase
    did to the files. */
module DiskLifecycle {
  import opened Results
  import opened Text
  import opened Plans
  import opened Wire
  import opened CouncilSteps
  import opened FileTransaction
  import opened TransactionOutcome
  import opened EffectOutcome
  import opened LifecycleSafety
  import Approval
  import C = CouncilProtocol
  import L = Lifecycle
  import R = RunnerProtocol
  import S = RunnerService

  /** One effect phase that ended: what it was given, and what it left. */
  datatype Performance = Performance(
    id: string,
    plan: Plan,
    before: DiskState,
    run: S.Commands,
    after: DiskState,
    response: Response)

  datatype World = World(system: L.System, disk: DiskState, performed: seq<Performance>)

  /** Perform takes a call through its effect phase; `run` is what its commands do. With
      DieWriting the runner dies in the call's transaction, `wrote` files written. Change
      is anything else that happens to the disk: other programs, new faults, and what an
      effect phase had done when the runner died in its commands or in an undo. */
  datatype Step =
    | Other(step: L.Step)
    | Perform(call: nat, run: S.Commands)
    | DieWriting(call: nat, wrote: nat)
    | Change(disk: DiskState)

  function Start(disk: DiskState): World { World(L.START, disk, []) }

  predicate Performable(w: World, c: nat) {
    var r := w.system.runner;
    c in r.calls && r.calls[c].phase.Performing? && r.calls[c].msg < |w.system.side.reqs|
  }

  function PlanFor(w: World, c: nat): Plan
    requires Performable(w, c)
  {
    Rebuild(w.system.side.reqs[w.system.runner.calls[c].msg])
  }

  function EffectOf(ws: Workspace, w: World, c: nat, run: S.Commands): S.Effect
    requires Performable(w, c)
  {
    S.Effects(ws, run, w.disk, w.system.runner.calls[c].id, PlanFor(w, c))
  }

  /** The writes of the call's transaction, once every patch is prepared. */
  function WritesOf(ws: Workspace, w: World, c: nat): Option<seq<Write>>
    requires Performable(w, c)
  {
    match PrepareAll(ws, w.disk.files, Elems(PlanFor(w, c).patches))
    case Err(_) => None
    case Ok(ps) => Some(Writes(ps))
  }

  /** The call's transaction gets as far as `wrote` files. */
  predicate Writable(ws: Workspace, w: World, c: nat, wrote: nat) {
    && Performable(w, c) && WritesOf(ws, w, c).Some? && wrote <= |WritesOf(ws, w, c).value|
    && WriteAll(w.disk, WritesOf(ws, w, c).value[..wrote]).1
  }

  /** The step of the lifecycle below, if there is one: a panic is the runner's death. */
  function Below(ws: Workspace, w: World, st: Step): Option<L.Step> {
    match st
    case Change(_) => None
    case Other(step) => if step.AtRunner? && step.runner.Complete? then None else Some(step)
    case DieWriting(c, wrote) => if Writable(ws, w, c, wrote) then Some(L.AtRunner(R.Crash)) else None
    case Perform(c, run) =>
      if !Performable(w, c) then None
      else
        match EffectOf(ws, w, c, run).response
        case None => Some(L.AtRunner(R.Crash))
        case Some(response) => Some(L.AtRunner(R.Complete(c, response)))
  }

  function Do(env: C.Env, ws: Workspace, w: World, st: Step): World {
    var below := Below(ws, w, st);
    var system := if below.Some? then L.Do(env, w.system, below.value) else w.system;
    match st
    case Change(disk) => w.(disk := disk)
    case Other(_) => w.(system := system)
    case DieWriting(c, wrote) =>
      if !Writable(ws, w, c, wrote) then w
      else World(system, WriteAll(w.disk, WritesOf(ws, w, c).value[..wrote]).0, w.performed)
    case Perform(c, run) =>
      if !Performable(w, c) then w
      else
        var e := EffectOf(ws, w, c, run);
        World(system, e.disk,
              if e.response.None? then w.performed
              else
                var id := w.system.runner.calls[c].id;
                w.performed + [Performance(id, PlanFor(w, c), w.disk, run, e.disk, e.response.value)])
  }

  function Run(env: C.Env, ws: Workspace, w: World, steps: seq<Step>): World {
    if steps == [] then w else Do(env, ws, Run(env, ws, w, steps[..|steps| - 1]), steps[|steps| - 1])
  }

  // ------------------------------------------------------ the lifecycle below

  /** The steps a run takes in the lifecycle below it. */
  function StepsBelow(env: C.Env, ws: Workspace, disk: DiskState, steps: seq<Step>): seq<L.Step> {
    if steps == [] then []
    else
      var init := steps[..|steps| - 1];
      var below := Below(ws, Run(env, ws, Start(disk), init), steps[|steps| - 1]);
      StepsBelow(env, ws, disk, init) + if below.Some? then [below.value] else []
  }

  lemma {:induction false} RunsBelow(env: C.Env, ws: Workspace, disk: DiskState, steps: seq<Step>)
    ensures Run(env, ws, Start(disk), steps).system == L.Run(env, L.START, StepsBelow(env, ws, disk, steps))
  {
    if steps != [] {
      var init := steps[..|steps| - 1];
      RunsBelow(env, ws, disk, init);
      var below := Below(ws, Run(env, ws, Start(disk), init), steps[|steps| - 1]);
      var before := StepsBelow(env, ws, disk, init);
      if below.Some? {
        assert (before + [below.value])[..|before|] == before;
      } else {
        assert before + [] == before;
      }
    }
  }

  // ---------------------------------------------------- what was performed

  /** The response and the disk are those of the effect phase. */
  predicate Sound(ws: Workspace, p: Performance) {
    S.Effects(ws, p.run, p.before, p.id, p.plan) == S.Effect(p.after, Some(p.response)) && p.response.requestId == p.id
  }

  /** The plan is one that a request of this id carried. */
  predicate Carried(reqs: seq<Request>, p: Performance) {
    exists m :: 0 <= m < |reqs| && reqs[m].requestId == p.id && Rebuild(reqs[m]) == p.plan
  }

  predicate Backed(ws: Workspace, w: World, e: R.Event) {
    exists k :: 0 <= k < |w.performed| && Backs(ws, w.system.side.reqs, w.performed[k], e)
  }

  predicate Backs(ws: Workspace, reqs: seq<Request>, p: Performance, e: R.Event) {
    e.Finished? && p.id == e.id && p.response == e.response && Sound(ws, p) && Carried(reqs, p)
  }

  function EndsOf(log: seq<R.Event>, task: nat): nat {
    if log == [] then 0
    else EndsOf(log[..|log| - 1], task) + if Ends(log[|log| - 1], task) then 1 else 0
  }

  function PerformedFor(ps: seq<Performance>, task: nat): nat {
    if ps == [] then 0
    else PerformedFor(ps[..|ps| - 1], task) + if Of(ps[|ps| - 1].id, task) then 1 else 0
  }

  /** Every finished effect phase in the runner's log was performed, and as often. */
  ghost predicate Inv(ws: Workspace, w: World) {
    && (forall e :: e in w.system.runner.log && e.Finished? ==> Backed(ws, w, e))
    && forall task :: PerformedFor(w.performed, task) == EndsOf(w.system.runner.log, task)
  }

  lemma StillCarried(reqs: seq<Request>, reqs': seq<Request>, p: Performance)
    requires Carried(reqs, p) && reqs <= reqs'
    ensures Carried(reqs', p)
  {
    var m :| 0 <= m < |reqs| && reqs[m].requestId == p.id && Rebuild(reqs[m]) == p.plan;
    assert reqs'[m] == reqs[m];
  }

  lemma StillBacked(ws: Workspace, w: World, w': World, e: R.Event)
    requires Backed(ws, w, e) && w.performed <= w'.performed && w.system.side.reqs <= w'.system.side.reqs
    ensures Backed(ws, w', e)
  {
    var k :| 0 <= k < |w.performed| && Backs(ws, w.system.side.reqs, w.performed[k], e);
    StillCarried(w.system.side.reqs, w'.system.side.reqs, w.performed[k]);
    assert w'.performed[k] == w.performed[k] && Backs(ws, w'.system.side.reqs, w'.performed[k], e);
  }

  lemma EndsNext(log: seq<R.Event>, e: R.Event, task: nat)
    ensures EndsOf(log + [e], task) == EndsOf(log, task) + if Ends(e, task) then 1 else 0
  {
    assert (log + [e])[..|log|] == log;
  }

  lemma PerformedNext(ps: seq<Performance>, p: Performance, task: nat)
    ensures PerformedFor(ps + [p], task) == PerformedFor(ps, task) + if Of(p.id, task) then 1 else 0
  {
    assert (ps + [p])[..|ps|] == ps;
  }

  /** A step below that completes nothing logs no end. */
  predicate NoEnd(log: seq<R.Event>, log': seq<R.Event>) {
    log' == log || (|log'| == |log| + 1 && log <= log' && log'[|log|].Entered?)
  }

  lemma OtherLogsNoEnd(env: C.Env, s: L.System, st: L.Step)
    requires L.Inv(env, s) && !(st.AtRunner? && st.runner.Complete?)
    ensures NoEnd(s.runner.log, L.Do(env, s, st).runner.log)
    ensures s.side.reqs <= L.Do(env, s, st).side.reqs
  {
    StepIsOnward(env, s, st);
    if st.AtRunner? {
      RunnerLogsNoEnd(env.digest, s.side.reqs, s.runner, st.runner);
    }
  }

  lemma RunnerLogsNoEnd(digest: Approval.Digest, reqs: seq<Request>, r: R.Runner, st: R.Step)
    requires !st.Complete?
    ensures NoEnd(r.log, R.Do(digest, reqs, r, st).log)
  {
  }

  lemma NoEndKeeps(ws: Workspace, w: World, w': World)
    requires Inv(ws, w) && w'.performed == w.performed && w.system.side.reqs <= w'.system.side.reqs
    requires NoEnd(w.system.runner.log, w'.system.runner.log)
    ensures Inv(ws, w')
  {
    var log, log' := w.system.runner.log, w'.system.runner.log;
    forall e | e in log' && e.Finished? ensures Backed(ws, w', e) {
      assert e in log;
      StillBacked(ws, w, w', e);
    }
    forall task ensures PerformedFor(w'.performed, task) == EndsOf(log', task) {
      if log' != log {
        assert log' == log + [log'[|log|]];
        EndsNext(log, log'[|log|], task);
      }
    }
  }

  lemma CompletedLogs(env: C.Env, s: L.System, c: nat, response: Response)
    requires c in s.runner.calls && s.runner.calls[c].phase.Performing? && response.requestId == s.runner.calls[c].id
    ensures var call, s' := s.runner.calls[c], L.Do(env, s, L.AtRunner(R.Complete(c, response)));
            && s'.side == s.side
            && s'.runner.log == s.runner.log + [R.Finished(call.id, call.phase.claimed, response)]
  {
  }

  lemma PerformLogs(env: C.Env, ws: Workspace, w: World, c: nat, run: S.Commands)
    requires Performable(w, c) && EffectOf(ws, w, c, run).response.Some?
    ensures var call, e := w.system.runner.calls[c], EffectOf(ws, w, c, run);
            var w' := Do(env, ws, w, Perform(c, run));
            && e.response.value.requestId == call.id
            && w'.system.side == w.system.side
            && w'.performed
               == w.performed + [Performance(call.id, PlanFor(w, c), w.disk, run, e.disk, e.response.value)]
            && w'.system.runner.log
               == w.system.runner.log + [R.Finished(call.id, call.phase.claimed, e.response.value)]
  {
    S.SucceededRanEverything(ws, run, w.disk, w.system.runner.calls[c].id, PlanFor(w, c));
    CompletedLogs(env, w.system, c, EffectOf(ws, w, c, run).response.value);
  }

  lemma PerformBacks(env: C.Env, ws: Workspace, w: World, c: nat, run: S.Commands)
    requires R.Inv(w.system.runner, w.system.side.reqs)
    requires Performable(w, c) && EffectOf(ws, w, c, run).response.Some?
    ensures var w', n := Do(env, ws, w, Perform(c, run)), |w.performed|;
            && |w'.performed| == n + 1 && |w'.system.runner.log| == |w.system.runner.log| + 1
            && Backs(ws, w'.system.side.reqs, w'.performed[n], w'.system.runner.log[|w.system.runner.log|])
  {
    PerformLogs(env, ws, w, c, run);
    assert R.CallConsistent(w.system.runner, w.system.side.reqs, w.system.runner.calls[c]);
    assert w.system.side.reqs[w.system.runner.calls[c].msg].requestId == w.system.runner.calls[c].id;
  }

  /** One performance and the end it logs. */
  ghost predicate Adds(w: World, w': World, p: Performance, end: R.Event) {
    && w'.performed == w.performed + [p] && w'.system.runner.log == w.system.runner.log + [end]
    && w'.system.side.reqs == w.system.side.reqs
  }

  lemma AddingKeeps(ws: Workspace, w: World, w': World, p: Performance, end: R.Event)
    requires Inv(ws, w) && Adds(w, w', p, end) && Backs(ws, w'.system.side.reqs, p, end)
    ensures Inv(ws, w')
  {
    var log := w.system.runner.log;
    assert w'.performed[|w.performed|] == p;
    forall e | e in log + [end] && e.Finished? ensures Backed(ws, w', e) {
      if e in log {
        StillBacked(ws, w, w', e);
      }
    }
    forall task ensures PerformedFor(w'.performed, task) == EndsOf(log + [end], task) {
      EndsNext(log, end, task);
      PerformedNext(w.performed, p, task);
    }
  }

  lemma PerformKeeps(env: C.Env, ws: Workspace, w: World, c: nat, run: S.Commands)
    requires Inv(ws, w) && R.Inv(w.system.runner, w.system.side.reqs)
    requires Performable(w, c) && EffectOf(ws, w, c, run).response.Some?
    ensures Inv(ws, Do(env, ws, w, Perform(c, run)))
  {
    var w' := Do(env, ws, w, Perform(c, run));
    PerformLogs(env, ws, w, c, run);
    PerformBacks(env, ws, w, c, run);
    AddingKeeps(ws, w, w', w'.performed[|w.performed|], w'.system.runner.log[|w.system.runner.log|]);
  }

  lemma StepKeeps(env: C.Env, ws: Workspace, w: World, st: Step)
    requires L.Inv(env, w.system) && Inv(ws, w)
    ensures Inv(ws, Do(env, ws, w, st))
  {
    var w' := Do(env, ws, w, st);
    if st.Perform? && Performable(w, st.call) && EffectOf(ws, w, st.call, st.run).response.Some? {
      PerformKeeps(env, ws, w, st.call, st.run);
    } else {
      if Below(ws, w, st).Some? {
        OtherLogsNoEnd(env, w.system, Below(ws, w, st).value);
      }
      NoEndKeeps(ws, w, w');
    }
  }

  lemma {:induction false} Reachable(env: C.Env, ws: Workspace, disk: DiskState, steps: seq<Step>)
    ensures Inv(ws, Run(env, ws, Start(disk), steps)) && L.Inv(env, Run(env, ws, Start(disk), steps).system)
  {
    RunsBelow(env, ws, disk, steps);
    L.Reachable(env, StepsBelow(env, ws, disk, steps));
    if steps != [] {
      var init := steps[..|steps| - 1];
      Reachable(env, ws, disk, init);
      StepKeeps(env, ws, Run(env, ws, Start(disk), init), steps[|steps| - 1]);
    }
  }

  // ------------------------------------------------------ down to the disk

  /** Every patch led to a readable file with the hash it names and a diff that applies, and
      they were applied as one transaction; then every command and every verification
      command, each on the files the one before left, ran, in time, and exited with 0, and
      the files are those the last one left. */
  ghost predicate Applied(ws: Workspace, p: Performance) {
    var patches := Elems(p.plan.patches);
    var o := ApplySpec(ws, p.before, patches);
    && Sound(ws, p)
    && AllPreparable(ws, p.before.files, patches) && o.result.Ok?
    && AllClean(p.run, o.disk.files, CommandCount(p.plan))
    && p.after.files == FilesAt(p.run, o.disk.files, CommandCount(p.plan))
    && Tells(p.run, o.disk.files, p.plan, p.response)
  }

  lemma SucceededIsApplied(ws: Workspace, p: Performance)
    requires Sound(ws, p) && p.response.status == "SUCCEEDED"
    ensures Applied(ws, p)
  {
    EffectsExactly(ws, p.run, p.before, p.id, p.plan);
    SucceedsExactly(ws, p.before, Elems(p.plan.patches));
  }

  /** The performance a SUCCEEDED task rests on. */
  ghost predicate PerformedAs(ws: Workspace, c: Council, task: nat, p: Performance)
    requires task in c.tasks
  {
    var t := c.tasks[task];
    && p.id == RequestId(task, t.planVersion) && p.plan == Rebuild(RequestFor(c, task))
    && t.verification == Some(p.response) && Applied(ws, p)
  }

  lemma BackedEndIsPerformed(env: C.Env, ws: Workspace, w: World, task: nat, e: R.Event)
    requires C.OriginsOk(env, w.system.side) && task in w.system.side.council.tasks
    requires Backed(ws, w, e) && e.response.status == "SUCCEEDED"
    requires var t := w.system.side.council.tasks[task];
             e.id == RequestId(task, t.planVersion) && t.verification == Some(e.response)
    ensures exists k :: 0 <= k < |w.performed| && PerformedAs(ws, w.system.side.council, task, w.performed[k])
  {
    var reqs := w.system.side.reqs;
    var k :| 0 <= k < |w.performed| && Backs(ws, reqs, w.performed[k], e);
    var p := w.performed[k];
    var m :| 0 <= m < |reqs| && reqs[m].requestId == p.id && Rebuild(reqs[m]) == p.plan;
    assert C.OriginOk(env, w.system.side, m);
    var a := w.system.side.origins[m].what;
    RequestIdOf(a.id, a.version, task);
    RequestIdOf(task, w.system.side.council.tasks[task].planVersion, task);
    SucceededIsApplied(ws, p);
    assert PerformedAs(ws, w.system.side.council, task, w.performed[k]);
  }

  /** A task recorded SUCCEEDED, on whatever disk and whatever else happened to it: an
      effect phase found every file the task's plan patches with the hash it names, applied
      the patches as one transaction, then ran every command and verification command with
      exit code 0, and its response is the one the task holds. */
  lemma SucceededReachedTheDisk(env: C.Env, ws: Workspace, disk: DiskState, steps: seq<Step>, task: nat)
    requires var c := Run(env, ws, Start(disk), steps).system.side.council;
             task in c.tasks && c.tasks[task].state.Succeeded?
    ensures var w := Run(env, ws, Start(disk), steps);
            exists k :: 0 <= k < |w.performed| && PerformedAs(ws, w.system.side.council, task, w.performed[k])
  {
    var w := Run(env, ws, Start(disk), steps);
    Reachable(env, ws, disk, steps);
    assert L.VerifiedOk(w.system, task);
    var t := w.system.side.council.tasks[task];
    var id, r := RequestId(task, t.planVersion), t.verification.value;
    var claimed := R.Finished(id, true, r) in w.system.runner.log;
    var e := R.Finished(id, claimed, r);
    BackedEndIsPerformed(env, ws, w, task, e);
  }

  lemma {:induction false} OneEnd(log: seq<R.Event>, task: nat)
    requires forall i, j | 0 <= i < |log| && 0 <= j < |log| && Ends(log[i], task) && Ends(log[j], task) :: i == j
    ensures EndsOf(log, task) <= 1
    ensures (forall i :: 0 <= i < |log| ==> !Ends(log[i], task)) ==> EndsOf(log, task) == 0
  {
    if log != [] {
      OneEnd(log[..|log| - 1], task);
    }
  }

  /** With same-id calls served one after another, at most one effect phase of a task ever
      ended, so the disk saw the plan of a SUCCEEDED task performed exactly once. */
  lemma PerformedAtMostOnce(env: C.Env, ws: Workspace, disk: DiskState, steps: seq<Step>, task: nat)
    requires InTurns(env, L.START, StepsBelow(env, ws, disk, steps))
    ensures PerformedFor(Run(env, ws, Start(disk), steps).performed, task) <= 1
  {
    var w := Run(env, ws, Start(disk), steps);
    Reachable(env, ws, disk, steps);
    RunsBelow(env, ws, disk, steps);
    TurnsStaySerial(env, StepsBelow(env, ws, disk, steps));
    SerialEndsOnce(env, w.system, task);
    OneEnd(w.system.runner.log, task);
  }

  // --------------------------------------------------- what failures leave

  lemma PerformedNow(env: C.Env, ws: Workspace, w: World, st: Step)
    requires forall p :: p in w.performed ==> Sound(ws, p)
    ensures forall p :: p in Do(env, ws, w, st).performed ==> Sound(ws, p)
  {
    if st.Perform? && Performable(w, st.call) && EffectOf(ws, w, st.call, st.run).response.Some? {
      PerformLogs(env, ws, w, st.call, st.run);
    }
  }

  lemma {:induction false} AllSound(env: C.Env, ws: Workspace, disk: DiskState, steps: seq<Step>)
    ensures forall p :: p in Run(env, ws, Start(disk), steps).performed ==> Sound(ws, p)
  {
    if steps != [] {
      AllSound(env, ws, disk, steps[..|steps| - 1]);
      PerformedNow(env, ws, Run(env, ws, Start(disk), steps[..|steps| - 1]), steps[|steps| - 1]);
    }
  }

  /** In every run: an effect phase that answered FAILED without the mark of a failed
      rollback has left every path its plan patches as it found it. */
  lemma FailedLeftNoTrace(env: C.Env, ws: Workspace, disk: DiskState, steps: seq<Step>, p: Performance, path: string)
    requires p in Run(env, ws, Start(disk), steps).performed && S.Patched(ws, p.plan, path)
    requires p.response.status == "FAILED" && !HasPrefix(p.response.errorCode, S.ROLLBACK)
    ensures Lookup(p.after.files, path) == Lookup(p.before.files, path)
  {
    AllSound(env, ws, disk, steps);
    S.FailedExecutionRestores(ws, p.run, p.before, p.id, p.plan, path);
  }

  /** A plan that panics ends the runner's process before any file changed, and leaves its
      request id stuck exactly when the call holds the claim on it. */
  lemma PanicSticks(env: C.Env, ws: Workspace, disk: DiskState, steps: seq<Step>, c: nat, run: S.Commands)
    requires var w := Run(env, ws, Start(disk), steps);
             Performable(w, c) && Panics(ws, w.disk.files, Elems(PlanFor(w, c).patches))
    ensures var w := Run(env, ws, Start(disk), steps);
            var w', call := Do(env, ws, w, Perform(c, run)), w.system.runner.calls[c];
            && w'.disk == w.disk && w'.system == L.Do(env, w.system, L.AtRunner(R.Crash))
            && (R.Stuck(w'.system.runner, call.id) <==> call.phase.claimed)
  {
    var w := Run(env, ws, Start(disk), steps);
    Reachable(env, ws, disk, steps);
    S.EffectsPanic(ws, run, w.disk, w.system.runner.calls[c].id, PlanFor(w, c));
    R.DeathInEffects(env.digest, w.system.side.reqs, w.system.runner, c);
  }

  lemma FirstWritesOnDisk(ws: Workspace, w: World, c: nat, wrote: nat)
    requires Writable(ws, w, c, wrote)
    ensures var patches := Elems(PlanFor(w, c).patches);
            && wrote <= |patches| && ApplySpec(ws, w.disk, patches[..wrote]).result.Ok?
            && ApplySpec(ws, w.disk, patches[..wrote]).disk
               == WriteAll(w.disk, WritesOf(ws, w, c).value[..wrote]).0
    ensures forall path | !S.Patched(ws, PlanFor(w, c), path) ::
              Lookup(WriteAll(w.disk, WritesOf(ws, w, c).value[..wrote]).0.files, path) == Lookup(w.disk.files, path)
  {
    var patches, writes := Elems(PlanFor(w, c).patches), WritesOf(ws, w, c).value;
    FirstWrites(ws, w.disk, patches, wrote);
    forall path | !S.Patched(ws, PlanFor(w, c), path)
      ensures Lookup(WriteAll(w.disk, writes[..wrote]).0.files, path) == Lookup(w.disk.files, path)
    {
      forall v | v in writes[..wrote] ensures v.path != path {
        var i :| 0 <= i < wrote && writes[i] == v;
        PreparedAt(ws, w.disk.files, patches, i);
        PrepareIsExact(ws, w.disk.files, patches[i]);
      }
      WritesLand(w.disk, writes[..wrote], path);
    }
  }

  lemma DyingIs(env: C.Env, ws: Workspace, w: World, c: nat, wrote: nat)
    requires Writable(ws, w, c, wrote)
    ensures var w' := Do(env, ws, w, DieWriting(c, wrote));
            && w'.disk == WriteAll(w.disk, WritesOf(ws, w, c).value[..wrote]).0
            && w'.system == L.Do(env, w.system, L.AtRunner(R.Crash))
            && w'.system.runner == R.Do(env.digest, w.system.side.reqs, w.system.runner, R.Crash)
  {
  }

  /** A runner that dies between two writes leaves the files that the transaction of the
      plan's first patches leaves, and the paths the plan does not patch as they were. The
      request id is stuck with them exactly when the call holds the claim on it. */
  lemma DeathLeavesFirstPatches(env: C.Env, ws: Workspace, disk: DiskState, steps: seq<Step>, c: nat, wrote: nat)
    requires Writable(ws, Run(env, ws, Start(disk), steps), c, wrote)
    ensures var w := Run(env, ws, Start(disk), steps);
            var w', call := Do(env, ws, w, DieWriting(c, wrote)), w.system.runner.calls[c];
            var patches := Elems(PlanFor(w, c).patches);
            && wrote <= |patches| && ApplySpec(ws, w.disk, patches[..wrote]).result.Ok?
            && w'.disk == ApplySpec(ws, w.disk, patches[..wrote]).disk
            && (forall path | !S.Patched(ws, PlanFor(w, c), path) ::
                  Lookup(w'.disk.files, path) == Lookup(w.disk.files, path))
            && w'.system == L.Do(env, w.system, L.AtRunner(R.Crash))
            && (R.Stuck(w'.system.runner, call.id) <==> call.phase.claimed)
  {
    var w := Run(env, ws, Start(disk), steps);
    Reachable(env, ws, disk, steps);
    DyingIs(env, ws, w, c, wrote);
    FirstWritesOnDisk(ws, w, c, wrote);
    R.DeathInEffects(env.digest, w.system.side.reqs, w.system.runner, c);
  }
}
