/** What holds of every run of council and runner. */
module LifecycleSafety {
  import opened Results
  import opened Text
  import opened Plans
  import opened Wire
  import opened Approvals
  import opened CouncilSteps
  import opened Lifecycle
  import Approval
  import C = CouncilProtocol
  import R = RunnerProtocol

  // ------------------------------------------- request ids name their task

  /** A request id of the task, for whatever plan version. */
  predicate Of(requestId: string, task: nat) { TaskName(task) + ":" <= requestId }

  lemma TaskNamePlain(task: nat)
    ensures forall i :: 0 <= i < |TaskName(task)| ==> TaskName(task)[i] != ':'
  {
    var digits := Dec(task);
    forall i | 0 <= i < |TaskName(task)| ensures TaskName(task)[i] != ':' {
      assert i >= 5 ==> TaskName(task)[i] == digits[i - 5] && digits[i - 5] in digits;
    }
  }

  lemma RequestIdOf(k: nat, version: int, task: nat)
    ensures Of(RequestId(k, version), task) <==> k == task
  {
    var p, q, id := TaskName(task), TaskName(k), RequestId(k, version);
    TaskNamePlain(task);
    TaskNamePlain(k);
    if Of(id, task) {
      assert id[|p|] == (p + ":")[|p|] == ':' && id[|q|] == ':';
      assert forall i :: 0 <= i < |p| ==> id[i] == (p + ":")[i] == p[i];
      assert forall i :: 0 <= i < |q| ==> id[i] == q[i];
      assert p == q;
      assert Dec(task) == p[5..] == q[5..] == Dec(k);
      DecInjective(task, k);
    }
  }

  /** A message the runner logged under a task's id was a request for its present plan version. */
  lemma LoggedForPresentVersion(env: C.Env, s: System, e: R.Event, task: nat)
    requires C.OriginsOk(env, s.side) && R.LogRequested(s.runner, s.side.reqs)
    requires e in s.runner.log && Of(e.id, task)
    ensures task in s.side.council.tasks && e.id == RequestId(task, s.side.council.tasks[task].planVersion)
  {
    var m :| 0 <= m < |s.side.reqs| && s.side.reqs[m].requestId == e.id;
    assert C.OriginOk(env, s.side, m);
    RequestIdOf(s.side.origins[m].what.id, s.side.origins[m].what.version, task);
  }

  // ------------------------------------------------------ at most one entry

  predicate Enters(e: R.Event, task: nat) { e.Entered? && Of(e.id, task) }

  function TaskEntries(log: seq<R.Event>, task: nat): nat {
    if log == [] then 0
    else TaskEntries(log[..|log| - 1], task) + if Enters(log[|log| - 1], task) then 1 else 0
  }

  lemma {:induction false} EntriesOf(log: seq<R.Event>, task: nat, id: string)
    requires forall e :: e in log && Of(e.id, task) ==> e.id == id
    requires Of(id, task)
    ensures TaskEntries(log, task) == multiset(log)[R.Entered(id, true)] + multiset(log)[R.Entered(id, false)]
  {
    if log != [] {
      var init, last := log[..|log| - 1], log[|log| - 1];
      assert log == init + [last] && last in log;
      EntriesOf(init, task, id);
    }
  }

  lemma {:induction false} NoEntries(log: seq<R.Event>, task: nat)
    requires forall e :: e in log ==> !Of(e.id, task)
    ensures TaskEntries(log, task) == 0
  {
    if log != [] {
      assert log[|log| - 1] in log;
      NoEntries(log[..|log| - 1], task);
    }
  }

  /** The runner's count for the task's one request id is the count for the task. */
  lemma EntriesAreTheIds(env: C.Env, s: System, task: nat)
    requires Inv(env, s)
    ensures task !in s.side.council.tasks ==> TaskEntries(s.runner.log, task) == 0
    ensures task in s.side.council.tasks ==>
              var id := RequestId(task, s.side.council.tasks[task].planVersion);
              TaskEntries(s.runner.log, task) == R.Entries(s.runner, id, true) + R.Entries(s.runner, id, false)
  {
    forall e | e in s.runner.log && Of(e.id, task)
      ensures task in s.side.council.tasks && e.id == RequestId(task, s.side.council.tasks[task].planVersion)
    {
      LoggedForPresentVersion(env, s, e, task);
    }
    if task in s.side.council.tasks {
      RequestIdOf(task, s.side.council.tasks[task].planVersion, task);
      EntriesOf(s.runner.log, task, RequestId(task, s.side.council.tasks[task].planVersion));
    } else {
      NoEntries(s.runner.log, task);
    }
  }

  /** A call entered the effect phase for the task after Begin's success without a claim. */
  predicate Bypassed(log: seq<R.Event>, task: nat) { exists e :: e in log && Enters(e, task) && !e.claimed }

  /** Over every run a task's plan enters the runner's effect phase at most once, exactly
      when no call entered it through the store's completed branch. */
  lemma AtMostOncePerTask(env: C.Env, steps: seq<Step>, task: nat)
    ensures var log := Run(env, START, steps).runner.log;
            TaskEntries(log, task) <= 1 <==> !Bypassed(log, task)
  {
    var s := Run(env, START, steps);
    Reachable(env, steps);
    EntriesAreTheIds(env, s, task);
    if task in s.side.council.tasks {
      var id := RequestId(task, s.side.council.tasks[task].planVersion);
      RequestIdOf(task, s.side.council.tasks[task].planVersion, task);
      R.AtMostOnceExactly(s.runner, s.side.reqs, id);
      BypassIsAnEntry(env, s, task, id);
    } else {
      forall e | e in s.runner.log ensures !Enters(e, task) {
        if Of(e.id, task) { LoggedForPresentVersion(env, s, e, task); }
      }
    }
  }

  lemma BypassIsAnEntry(env: C.Env, s: System, task: nat, id: string)
    requires Inv(env, s) && task in s.side.council.tasks
    requires id == RequestId(task, s.side.council.tasks[task].planVersion)
    ensures Bypassed(s.runner.log, task) <==> R.Entries(s.runner, id, false) > 0
  {
    RequestIdOf(task, s.side.council.tasks[task].planVersion, task);
    if Bypassed(s.runner.log, task) {
      var e :| e in s.runner.log && Enters(e, task) && !e.claimed;
      LoggedForPresentVersion(env, s, e, task);
      assert e == R.Entered(id, false) && e in multiset(s.runner.log);
    }
    if R.Entries(s.runner, id, false) > 0 {
      assert R.Entered(id, false) in s.runner.log;
    }
  }

  // ------------------------------------------ calls served one after another

  /** Every call arrives while no other call with its request id is being served. */
  predicate InTurns(env: C.Env, s: System, steps: seq<Step>) {
    steps == []
    || (var init, last := steps[..|steps| - 1], steps[|steps| - 1];
        var before := Run(env, s, init);
        && InTurns(env, s, init)
        && (last.AtRunner? ==> R.InTurn(before.side.reqs, before.runner, last.runner)))
  }

  lemma {:induction false} TurnsStaySerial(env: C.Env, steps: seq<Step>)
    requires InTurns(env, START, steps)
    ensures R.Serial(Run(env, START, steps).runner)
  {
    if steps != [] {
      var init, last := steps[..|steps| - 1], steps[|steps| - 1];
      TurnsStaySerial(env, init);
      Reachable(env, init);
      var before := Run(env, START, init);
      if last.AtRunner? {
        R.TurnsKeepSerial(env.digest, before.side.reqs, before.runner, last.runner);
      }
    }
  }

  /** The one end of an effect phase for the task, with this response. */
  predicate OnlyEnd(log: seq<R.Event>, task: nat, end: R.Event) {
    && end in log
    && forall i, j | 0 <= i < |log| && 0 <= j < |log| && Ends(log[i], task) && Ends(log[j], task) :: i == j
  }

  predicate Ends(e: R.Event, task: nat) { e.Finished? && Of(e.id, task) }

  lemma SerialEndsOnce(env: C.Env, s: System, task: nat)
    requires Inv(env, s) && R.Serial(s.runner)
    ensures forall i, j | 0 <= i < |s.runner.log| && 0 <= j < |s.runner.log|
              && Ends(s.runner.log[i], task) && Ends(s.runner.log[j], task) :: i == j
  {
    var log := s.runner.log;
    forall i, j | 0 <= i < |log| && 0 <= j < |log| && Ends(log[i], task) && Ends(log[j], task)
      ensures i == j
    {
      assert log[i] in log && log[j] in log;
      LoggedForPresentVersion(env, s, log[i], task);
      LoggedForPresentVersion(env, s, log[j], task);
    }
  }

  lemma FinishedMeansEntered(env: C.Env, s: System, id: string, r: Response)
    requires R.IdConsistent(s.runner, id) && R.HasFinished(s.runner, id, r)
    ensures R.Entries(s.runner, id, true) == 1
  {
  }

  lemma SucceededEnteredOnce(env: C.Env, s: System, task: nat)
    requires Inv(env, s) && R.Serial(s.runner)
    requires task in s.side.council.tasks && s.side.council.tasks[task].state.Succeeded?
    ensures var v := s.side.council.tasks[task].verification;
            && v.Some? && v.value.status == "SUCCEEDED"
            && TaskEntries(s.runner.log, task) == 1
            && OnlyEnd(s.runner.log, task,
                       R.Finished(RequestId(task, s.side.council.tasks[task].planVersion), true, v.value))
  {
    var t := s.side.council.tasks[task];
    var id := RequestId(task, t.planVersion);
    assert VerifiedOk(s, task);
    FinishedMeansEntered(env, s, id, t.verification.value);
    R.SerialHasNoBypass(s.runner, id);
    EntriesAreTheIds(env, s, task);
    SerialEndsOnce(env, s, task);
    assert R.Finished(id, false, t.verification.value) !in s.runner.log;
  }

  /** End to end: over every run in which same-id calls are served one after another,
      with retries, lost replies, crashes and restarts, a task's plan enters the effect
      phase at most once; a task recorded SUCCEEDED entered it exactly once, and its
      one effect phase ended with the SUCCEEDED response the task holds. */
  lemma AtMostOnceEndToEnd(env: C.Env, steps: seq<Step>, task: nat)
    requires InTurns(env, START, steps)
    ensures var s := Run(env, START, steps);
            && TaskEntries(s.runner.log, task) <= 1
            && (task in s.side.council.tasks && s.side.council.tasks[task].state.Succeeded? ==>
                  var t := s.side.council.tasks[task];
                  && t.verification.Some? && t.verification.value.status == "SUCCEEDED"
                  && TaskEntries(s.runner.log, task) == 1
                  && OnlyEnd(s.runner.log, task,
                             R.Finished(RequestId(task, t.planVersion), true, t.verification.value)))
  {
    var s := Run(env, START, steps);
    Reachable(env, steps);
    TurnsStaySerial(env, steps);
    AtMostOncePerTask(env, steps, task);
    assert !Bypassed(s.runner.log, task);
    if task in s.side.council.tasks && s.side.council.tasks[task].state.Succeeded? {
      SucceededEnteredOnce(env, s, task);
    }
  }

  /** Even with overlapping calls, a SUCCEEDED task entered exactly once under a claim,
      and the runner finished it with the response the task holds. */
  lemma SucceededWasClaimedOnce(env: C.Env, steps: seq<Step>, task: nat)
    requires var s := Run(env, START, steps);
             task in s.side.council.tasks && s.side.council.tasks[task].state.Succeeded?
    ensures var s := Run(env, START, steps);
            var t := s.side.council.tasks[task];
            var id := RequestId(task, t.planVersion);
            && t.verification.Some? && t.verification.value.status == "SUCCEEDED"
            && R.HasFinished(s.runner, id, t.verification.value)
            && R.Entries(s.runner, id, true) == 1
  {
    var s := Run(env, START, steps);
    Reachable(env, steps);
    assert VerifiedOk(s, task);
    var t := s.side.council.tasks[task];
    FinishedMeansEntered(env, s, RequestId(task, t.planVersion), t.verification.value);
  }

  // ------------------------------------------------ the plan that was approved

  /** In every reachable state each request carries exactly a plan accepted by an approve
      step completed before the request was sent, which is still the task's plan, under
      the hash of run, workspace and plan. */
  lemma RequestsCarryAcceptedPlans(env: C.Env, steps: seq<Step>, m: nat)
    requires m < |Run(env, START, steps).side.reqs|
    ensures var s := Run(env, START, steps).side;
            && |s.origins| == |s.reqs|
            && var a := s.origins[m].what;
               && s.origins[m].before <= |s.accepted| && a in s.accepted[..s.origins[m].before]
               && a.hash == HashOf(env.digest, a.id, a.workspace, a.plan)
               && a.id in s.council.tasks && a == C.Snapshot(s.council, a.id)
               && s.reqs[m] == RequestFor(s.council, a.id)
  {
    Reachable(env, steps);
    assert C.OriginOk(env, Run(env, START, steps).side, m);
  }

  predicate RunnerAccepts(digest: Approval.Digest, req: Request) {
    Approval.Verify(digest, req.approvalHash, req.runId, req.workspaceId, Rebuild(req))
  }

  /** An accept step took this run, workspace and, field by field, this plan. */
  predicate WasAccepted(s: C.Side, req: Request) {
    exists a :: a in s.accepted && SameRequest(a, req)
  }

  predicate SameRequest(a: C.Acceptance, req: Request) {
    && req.runId == TaskName(a.id) && req.workspaceId == WorkspaceName(a.workspace)
    && Approval.SameExecutable(a.plan, Rebuild(req))
  }

  lemma EnteringMeansAccepting(env: C.Env, s: System, c: nat)
    requires R.Inv(s.runner, s.side.reqs)
    requires Do(env, s, AtRunner(R.Verify(c))).runner.log != s.runner.log
    ensures c in s.runner.calls && s.runner.calls[c].msg < |s.side.reqs|
    ensures RunnerAccepts(env.digest, s.side.reqs[s.runner.calls[c].msg])
  {
  }

  lemma AcceptedRequest(env: C.Env, s: C.Side, m: nat)
    requires Approval.Injective(env.digest) && C.OriginsOk(env, s) && m < |s.reqs|
    requires RunnerAccepts(env.digest, s.reqs[m])
    ensures WasAccepted(s, s.reqs[m])
  {
    assert C.OriginOk(env, s, m);
    var a := s.origins[m].what;
    Approval.VerifyBinds(env.digest, TaskName(a.id), WorkspaceName(a.workspace), a.plan,
                         s.reqs[m].runId, s.reqs[m].workspaceId, Rebuild(s.reqs[m]));
    assert a in s.accepted && SameRequest(a, s.reqs[m]);
  }

  /** What enters the effect phase is, field by field, a plan an approve step accepted
      for that very run and workspace. */
  lemma OnlyAcceptedPlansEnter(env: C.Env, steps: seq<Step>, c: nat)
    requires Approval.Injective(env.digest)
    requires var s := Run(env, START, steps);
             Do(env, s, AtRunner(R.Verify(c))).runner.log != s.runner.log
    ensures var s := Run(env, START, steps);
            && c in s.runner.calls && s.runner.calls[c].msg < |s.side.reqs|
            && WasAccepted(s.side, s.side.reqs[s.runner.calls[c].msg])
  {
    var s := Run(env, START, steps);
    Reachable(env, steps);
    EnteringMeansAccepting(env, s, c);
    AcceptedRequest(env, s.side, s.runner.calls[c].msg);
  }

  // ------------------------------------------------------ nothing goes back

  lemma OnwardChains(t: Task, u: Task, v: Task)
    requires C.Onward(t, u) && C.Onward(u, v)
    ensures C.Onward(t, v)
  {
  }

  lemma AllOnwardChains(s: C.Side, t: C.Side, u: C.Side)
    requires C.AllOnward(s, t) && C.AllOnward(t, u)
    ensures C.AllOnward(s, u)
  {
    forall id | id in s.council.tasks
      ensures id in u.council.tasks && C.Onward(s.council.tasks[id], u.council.tasks[id])
    {
      OnwardChains(s.council.tasks[id], t.council.tasks[id], u.council.tasks[id]);
    }
  }

  lemma StepIsOnward(env: C.Env, s: System, st: Step)
    requires Inv(env, s)
    ensures C.AllOnward(s.side, Do(env, s, st).side)
  {
    match st
    case AtCouncil(c) => CouncilStepKeeps(env, s, c);
    case AtRunner(_) => C.Unmoved(s.side, s.side);
  }

  lemma OnwardByStep(env: C.Env, from: C.Side, s: System, st: Step)
    requires Inv(env, s) && C.AllOnward(from, s.side)
    ensures C.AllOnward(from, Do(env, s, st).side)
  {
    StepIsOnward(env, s, st);
    AllOnwardChains(from, s.side, Do(env, s, st).side);
  }

  lemma LastStep(env: C.Env, s: System, steps: seq<Step>, more: seq<Step>)
    requires more != []
    ensures Run(env, s, steps + more) == Do(env, Run(env, s, steps + more[..|more| - 1]), more[|more| - 1])
  {
    assert (steps + more)[..|steps + more| - 1] == steps + more[..|more| - 1];
  }

  /** From any reachable state on: a plan, its version and its hash never change once
      the task left ANALYZING, AWAITING_APPROVAL is never entered a second time, a
      CANCELLED, FAILED or SUCCEEDED task stays in that set, and no request for it is
      sent any more. */
  lemma {:induction false} NothingGoesBack(env: C.Env, steps: seq<Step>, more: seq<Step>)
    ensures C.AllOnward(Run(env, START, steps).side, Run(env, START, steps + more).side)
  {
    if more == [] {
      assert steps + more == steps;
      C.Unmoved(Run(env, START, steps).side, Run(env, START, steps).side);
    } else {
      var init := more[..|more| - 1];
      NothingGoesBack(env, steps, init);
      Reachable(env, steps + init);
      OnwardByStep(env, Run(env, START, steps).side, Run(env, START, steps + init), more[|more| - 1]);
      LastStep(env, START, steps, more);
    }
  }

  // ------------------------------------------------------ approval rows

  lemma {:induction false} RowsNeverLeave(env: C.Env, s: System, more: seq<Step>)
    ensures C.RowsStay(s.side.council.db.approvals, Run(env, s, more).side.council.db.approvals)
  {
    if more != [] {
      var init, last := more[..|more| - 1], more[|more| - 1];
      RowsNeverLeave(env, s, init);
      var t := Run(env, s, init);
      if last.AtCouncil? {
        C.StepKeepsRows(env, t.runner.replies, t.side, last.council);
      }
    }
  }

  /** Over any run at most one row of a task is ever consumed: a row consumed at one
      point and a row consumed at any later point are the same row. */
  lemma ConsumedOnce(env: C.Env, steps: seq<Step>, more: seq<Step>, a: int, b: int)
    requires var rows := Run(env, START, steps).side.council.db.approvals; a in rows && rows[a].consumed
    requires var rows := Run(env, START, steps + more).side.council.db.approvals;
             b in rows && rows[b].consumed && rows[b].runId == Run(env, START, steps).side.council.db.approvals[a].runId
    ensures a == b
  {
    RunAppend(env, START, steps, more);
    RowsNeverLeave(env, Run(env, START, steps), more);
    Reachable(env, steps + more);
  }

  lemma AtMostOneElement<T>(s: set<T>)
    requires forall a, b :: a in s && b in s ==> a == b
    ensures |s| <= 1
  {
    if s != {} {
      var a :| a in s;
      assert s == {a};
    }
  }

  lemma ActiveRowIsOne(s: C.Side, run: nat, version: int, hash: string, a: int, b: int)
    requires C.RowsOk(s)
    requires a in ActiveIds(s.council.db.approvals, run, version, hash)
    requires b in ActiveIds(s.council.db.approvals, run, version, hash)
    ensures a == b
  {
  }

  /** At most one row of a task is active in any reachable state. */
  lemma ActiveOnce(env: C.Env, steps: seq<Step>, run: nat, version: int, hash: string)
    ensures |ActiveIds(Run(env, START, steps).side.council.db.approvals, run, version, hash)| <= 1
  {
    Reachable(env, steps);
    var s := Run(env, START, steps).side;
    var ids := ActiveIds(s.council.db.approvals, run, version, hash);
    forall a, b | a in ids && b in ids ensures a == b {
      ActiveRowIsOne(s, run, version, hash, a, b);
    }
    AtMostOneElement(ids);
  }

  // ------------------------------------- which approved plans the runner accepts

  predicate AllCommandsCarried(plan: Plan) {
    AllCarried(Elems(plan.commands)) && AllCarried(Elems(plan.verification))
  }

  /** The runner's check passes on a task's request exactly when the task's plan version
      is the plan's own and the numbers and argument lists survive the wire. */
  lemma RunnerAcceptsExactly(env: C.Env, steps: seq<Step>, id: nat)
    requires Approval.Injective(env.digest)
    requires var tasks := Run(env, START, steps).side.council.tasks; id in tasks && C.Planned(tasks[id])
    ensures var c := Run(env, START, steps).side.council;
            RunnerAccepts(env.digest, RequestFor(c, id))
            <==> Int32(c.tasks[id].planVersion) == c.tasks[id].plan.version && AllCommandsCarried(c.tasks[id].plan)
  {
    Reachable(env, steps);
    var s := Run(env, START, steps).side;
    var t := s.council.tasks[id];
    assert C.TaskOk(env, s, id);
    ApprovalSurvivesTheWire(env.digest, RequestId(id, t.planVersion), TaskName(id), WorkspaceName(t.workspace),
                            t.planVersion, t.plan);
  }

  /** The plan has the task's version, and criteria to be accepted by. */
  predicate Complete(t: Task) { t.planVersion == t.plan.version && Elems(t.plan.acceptance) != [] }

  predicate PlansComplete(s: C.Side) {
    forall id :: id in s.council.tasks ==>
      s.council.tasks[id].acceptance != [] && (C.Planned(s.council.tasks[id]) ==> Complete(s.council.tasks[id]))
  }

  predicate SamePlan(t: Task, t': Task) { C.Planned(t) && t'.plan == t.plan && t'.planVersion == t.planVersion }

  lemma PlannedByLockStepOfStart(env: C.Env, replies: map<nat, Response>, s: C.Side, st: C.Step, id: nat)
    requires C.Starting(st)
    requires env.deliberates && s.holder.Free? && !st.Restart?
    requires id in s.council.tasks ==> s.council.tasks[id].acceptance != []
    requires var s' := C.Do(env, replies, s, st); id in s'.council.tasks && C.Planned(s'.council.tasks[id])
    ensures var t' := C.Do(env, replies, s, st).council.tasks[id];
            Complete(t') || (id in s.council.tasks && SamePlan(s.council.tasks[id], t'))
  {
  }

  lemma PlannedByLockStepOfRest(env: C.Env, replies: map<nat, Response>, s: C.Side, st: C.Step, id: nat)
    requires !C.Starting(st)
    requires env.deliberates && s.holder.Free? && !st.Restart?
    requires id in s.council.tasks ==> s.council.tasks[id].acceptance != []
    requires var s' := C.Do(env, replies, s, st); id in s'.council.tasks && C.Planned(s'.council.tasks[id])
    ensures var t' := C.Do(env, replies, s, st).council.tasks[id];
            Complete(t') || (id in s.council.tasks && SamePlan(s.council.tasks[id], t'))
  {
  }

  lemma PlannedByLockStep(env: C.Env, replies: map<nat, Response>, s: C.Side, st: C.Step, id: nat)
    requires env.deliberates && s.holder.Free? && !st.Restart?
    requires id in s.council.tasks ==> s.council.tasks[id].acceptance != []
    requires var s' := C.Do(env, replies, s, st); id in s'.council.tasks && C.Planned(s'.council.tasks[id])
    ensures var t' := C.Do(env, replies, s, st).council.tasks[id];
            Complete(t') || (id in s.council.tasks && SamePlan(s.council.tasks[id], t'))
  {
    if C.Starting(st) {
      PlannedByLockStepOfStart(env, replies, s, st, id);
    } else {
      PlannedByLockStepOfRest(env, replies, s, st, id);
    }
  }

  lemma PlannedByHeldStep(env: C.Env, replies: map<nat, Response>, s: C.Side, st: C.Step, id: nat)
    requires C.HolderOk(s) && !s.holder.Free? && !st.Restart?
    requires var s' := C.Do(env, replies, s, st); id in s'.council.tasks && C.Planned(s'.council.tasks[id])
    ensures id in s.council.tasks && SamePlan(s.council.tasks[id], C.Do(env, replies, s, st).council.tasks[id])
  {
  }

  /** A restart brings back the tasks, each as it was or, in DRAFT, without a plan. */
  lemma TaskByRestart(env: C.Env, replies: map<nat, Response>, s: C.Side, n: nat, id: nat)
    requires C.TablesOk(s) && (id in s.council.tasks ==> C.TaskOk(env, s, id))
    requires id in C.Do(env, replies, s, C.Restart(n)).council.tasks
    ensures id in s.council.tasks
    ensures C.Agrees(s.council.tasks[id], C.Do(env, replies, s, C.Restart(n)).council.tasks[id])
  {
    assert id in s.council.tasks.Keys <==> id in s.council.db.tasks.Keys;
  }

  lemma AcceptanceStaysOfStart(env: C.Env, replies: map<nat, Response>, s: C.Side, st: C.Step, id: nat)
    requires C.Starting(st)
    requires !st.Restart? && id in C.Do(env, replies, s, st).council.tasks
    requires id in s.council.tasks ==> s.council.tasks[id].acceptance != []
    ensures C.Do(env, replies, s, st).council.tasks[id].acceptance != []
  {
  }

  lemma AcceptanceStaysOfRest(env: C.Env, replies: map<nat, Response>, s: C.Side, st: C.Step, id: nat)
    requires !C.Starting(st)
    requires !st.Restart? && id in C.Do(env, replies, s, st).council.tasks
    requires id in s.council.tasks ==> s.council.tasks[id].acceptance != []
    ensures C.Do(env, replies, s, st).council.tasks[id].acceptance != []
  {
  }

  lemma AcceptanceStays(env: C.Env, replies: map<nat, Response>, s: C.Side, st: C.Step, id: nat)
    requires !st.Restart? && id in C.Do(env, replies, s, st).council.tasks
    requires id in s.council.tasks ==> s.council.tasks[id].acceptance != []
    ensures C.Do(env, replies, s, st).council.tasks[id].acceptance != []
  {
    if C.Starting(st) {
      AcceptanceStaysOfStart(env, replies, s, st, id);
    } else {
      AcceptanceStaysOfRest(env, replies, s, st, id);
    }
  }

  lemma StepKeepsComplete(env: C.Env, replies: map<nat, Response>, s: C.Side, st: C.Step)
    requires env.deliberates && C.Inv(env, s) && PlansComplete(s)
    ensures PlansComplete(C.Do(env, replies, s, st))
  {
    var s' := C.Do(env, replies, s, st);
    forall id | id in s'.council.tasks
      ensures s'.council.tasks[id].acceptance != []
      ensures C.Planned(s'.council.tasks[id]) ==> Complete(s'.council.tasks[id])
    {
      assert id in s.council.tasks ==> C.TaskOk(env, s, id);
      if st.Restart? {
        TaskByRestart(env, replies, s, st.nextId, id);
      } else {
        AcceptanceStays(env, replies, s, st, id);
        if C.Planned(s'.council.tasks[id]) {
          if s.holder.Free? {
            PlannedByLockStep(env, replies, s, st, id);
          } else {
            PlannedByHeldStep(env, replies, s, st, id);
          }
        }
      }
    }
  }

  /** With a council that deliberates, a submitted plan always has the task's version and
      at least one acceptance criterion. */
  lemma {:induction false} DeliberatedPlansAreComplete(env: C.Env, steps: seq<Step>)
    requires env.deliberates
    ensures PlansComplete(Run(env, START, steps).side)
  {
    if steps != [] {
      var init, last := steps[..|steps| - 1], steps[|steps| - 1];
      DeliberatedPlansAreComplete(env, init);
      Reachable(env, init);
      var s := Run(env, START, init);
      if last.AtCouncil? {
        StepKeepsComplete(env, s.runner.replies, s.side, last.council);
      }
    }
  }

  // --------------------------------------------- every execution was paid for

  predicate Executed(t: Task) { t.state.Executing? || t.state.Verifying? || t.state.Succeeded? }

  /** A consumed row of the task, for this plan version and hash. */
  predicate SpentRow(rows: Rows, a: int, id: nat, version: int, hash: string) {
    && a in rows && rows[a].consumed && rows[a].runId == id
    && rows[a].planVersion == version && rows[a].snapshotHash == hash
  }

  predicate Spent(rows: Rows, id: nat, t: Task) {
    exists a :: a in rows && SpentRow(rows, a, id, t.planVersion, t.approvalHash)
  }

  predicate AllSpent(s: C.Side) {
    forall id :: id in s.council.tasks && Executed(s.council.tasks[id]) ==>
      Spent(s.council.db.approvals, id, s.council.tasks[id])
  }

  predicate SameApproval(t: Task, t': Task) {
    Executed(t) && t'.planVersion == t.planVersion && t'.approvalHash == t.approvalHash
  }

  lemma ConsumingSpends(db: Tables, id: nat, t: Task)
    requires ConsumeAndStart(db, id, t.planVersion, t.approvalHash).1
    ensures Spent(ConsumeAndStart(db, id, t.planVersion, t.approvalHash).0.approvals, id, t.(state := Executing))
  {
    ConsumeAndStartIsAtomic(db, id, t.planVersion, t.approvalHash);
    var rows := ConsumeAndStart(db, id, t.planVersion, t.approvalHash).0.approvals;
    var a :| a in db.approvals && Active(db.approvals[a], id, t.planVersion, t.approvalHash)
          && rows == db.approvals[a := db.approvals[a].(consumed := true)];
    assert SpentRow(rows, a, id, t.planVersion, t.approvalHash);
  }

  lemma ExecutedByBegin(c: Council, k: nat, id: nat)
    requires id in ExecuteBegin(c, k).0.tasks && Executed(ExecuteBegin(c, k).0.tasks[id])
    ensures var c' := ExecuteBegin(c, k).0;
            || (id in c.tasks && SameApproval(c.tasks[id], c'.tasks[id]))
            || Spent(c'.db.approvals, id, c'.tasks[id])
  {
    if k == id && id in c.tasks {
      var t := c.tasks[id];
      if ConsumeAndStart(c.db, id, t.planVersion, t.approvalHash).1 {
        ConsumingSpends(c.db, id, t);
      }
    }
  }

  lemma ExecuteStepBegins(env: C.Env, replies: map<nat, Response>, s: C.Side, k: nat)
    requires s.holder.Free?
    ensures var c' := C.Do(env, replies, s, C.ExecuteFirst(k)).council;
            c' == s.council || c' == ExecuteBegin(s.council, k).0
  {
  }

  lemma ExecutedByNonExecuteOfStart(env: C.Env, replies: map<nat, Response>, s: C.Side, st: C.Step, id: nat)
    requires C.Starting(st)
    requires s.holder.Free? && !st.Restart? && !st.ExecuteFirst?
    requires var s' := C.Do(env, replies, s, st); id in s'.council.tasks && Executed(s'.council.tasks[id])
    ensures id in s.council.tasks && SameApproval(s.council.tasks[id], C.Do(env, replies, s, st).council.tasks[id])
  {
  }

  lemma ExecutedByNonExecuteOfRest(env: C.Env, replies: map<nat, Response>, s: C.Side, st: C.Step, id: nat)
    requires !C.Starting(st)
    requires s.holder.Free? && !st.Restart? && !st.ExecuteFirst?
    requires var s' := C.Do(env, replies, s, st); id in s'.council.tasks && Executed(s'.council.tasks[id])
    ensures id in s.council.tasks && SameApproval(s.council.tasks[id], C.Do(env, replies, s, st).council.tasks[id])
  {
  }

  lemma ExecutedByNonExecute(env: C.Env, replies: map<nat, Response>, s: C.Side, st: C.Step, id: nat)
    requires s.holder.Free? && !st.Restart? && !st.ExecuteFirst?
    requires var s' := C.Do(env, replies, s, st); id in s'.council.tasks && Executed(s'.council.tasks[id])
    ensures id in s.council.tasks && SameApproval(s.council.tasks[id], C.Do(env, replies, s, st).council.tasks[id])
  {
    if C.Starting(st) {
      ExecutedByNonExecuteOfStart(env, replies, s, st, id);
    } else {
      ExecutedByNonExecuteOfRest(env, replies, s, st, id);
    }
  }

  lemma ExecutedByLockStep(env: C.Env, replies: map<nat, Response>, s: C.Side, st: C.Step, id: nat)
    requires s.holder.Free? && !st.Restart?
    requires var s' := C.Do(env, replies, s, st); id in s'.council.tasks && Executed(s'.council.tasks[id])
    ensures var s' := C.Do(env, replies, s, st);
            || (id in s.council.tasks && SameApproval(s.council.tasks[id], s'.council.tasks[id]))
            || Spent(s'.council.db.approvals, id, s'.council.tasks[id])
  {
    if st.ExecuteFirst? {
      ExecuteStepBegins(env, replies, s, st.id);
      if C.Do(env, replies, s, st).council != s.council {
        ExecutedByBegin(s.council, st.id, id);
      }
    } else {
      ExecutedByNonExecute(env, replies, s, st, id);
    }
  }

  lemma ExecutedByHeldStep(env: C.Env, replies: map<nat, Response>, s: C.Side, st: C.Step, id: nat)
    requires C.HolderOk(s) && !s.holder.Free? && !st.Restart?
    requires var s' := C.Do(env, replies, s, st); id in s'.council.tasks && Executed(s'.council.tasks[id])
    ensures id in s.council.tasks && SameApproval(s.council.tasks[id], C.Do(env, replies, s, st).council.tasks[id])
  {
  }

  lemma SpentStays(rows: Rows, rows': Rows, id: nat, t: Task, t': Task)
    requires Spent(rows, id, t) && C.RowsStay(rows, rows') && SameApproval(t, t')
    ensures Spent(rows', id, t')
  {
    var a :| a in rows && SpentRow(rows, a, id, t.planVersion, t.approvalHash);
    assert SpentRow(rows', a, id, t'.planVersion, t'.approvalHash);
  }

  lemma StepKeepsSpent(env: C.Env, replies: map<nat, Response>, s: C.Side, st: C.Step)
    requires C.Inv(env, s) && AllSpent(s)
    ensures AllSpent(C.Do(env, replies, s, st))
  {
    var s' := C.Do(env, replies, s, st);
    C.StepKeepsRows(env, replies, s, st);
    forall id | id in s'.council.tasks && Executed(s'.council.tasks[id])
      ensures Spent(s'.council.db.approvals, id, s'.council.tasks[id])
    {
      assert id in s.council.tasks ==> C.TaskOk(env, s, id);
      if st.Restart? {
        TaskByRestart(env, replies, s, st.nextId, id);
      } else if s.holder.Free? {
        ExecutedByLockStep(env, replies, s, st, id);
      } else {
        ExecutedByHeldStep(env, replies, s, st, id);
      }
      if id in s.council.tasks && SameApproval(s.council.tasks[id], s'.council.tasks[id]) {
        SpentStays(s.council.db.approvals, s'.council.db.approvals, id, s.council.tasks[id], s'.council.tasks[id]);
      }
    }
  }

  lemma {:induction false} RunsSpend(env: C.Env, steps: seq<Step>)
    ensures AllSpent(Run(env, START, steps).side)
  {
    if steps != [] {
      var init, last := steps[..|steps| - 1], steps[|steps| - 1];
      RunsSpend(env, init);
      Reachable(env, init);
      var s := Run(env, START, init);
      if last.AtCouncil? {
        StepKeepsSpent(env, s.runner.replies, s.side, last.council);
      }
    }
  }

  /** A task that is EXECUTING or further has spent an approval row of exactly its plan
      version and hash, and an approve step for exactly its plan was completed. */
  lemma ExecutionSpentItsApproval(env: C.Env, steps: seq<Step>, id: nat)
    requires var tasks := Run(env, START, steps).side.council.tasks; id in tasks && Executed(tasks[id])
    ensures var s := Run(env, START, steps).side;
            Spent(s.council.db.approvals, id, s.council.tasks[id]) && C.Snapshot(s.council, id) in s.accepted
  {
    RunsSpend(env, steps);
    Reachable(env, steps);
    assert C.TaskOk(env, Run(env, START, steps).side, id);
  }

  // ------------------------------------------------------ blocked for good

  lemma SilentKeepsEntries(r: R.Runner, r': R.Runner, id: string, claimed: bool)
    requires r.log <= r'.log && forall i :: |r.log| <= i < |r'.log| ==> r'.log[i].id != id
    ensures R.Entries(r', id, claimed) == R.Entries(r, id, claimed)
  {
    var more := r'.log[|r.log|..];
    assert r'.log == r.log + more;
    assert R.Entered(id, claimed) !in more;
  }

  /** Stuck now, and with the entries it had. */
  predicate StuckSince(r: R.Runner, r': R.Runner, id: string) {
    && R.Stuck(r', id)
    && R.Entries(r', id, true) == R.Entries(r, id, true) && R.Entries(r', id, false) == R.Entries(r, id, false)
  }

  lemma StuckByStep(env: C.Env, r: R.Runner, s: System, st: Step, id: string)
    requires Inv(env, s) && StuckSince(r, s.runner, id)
    ensures StuckSince(r, Do(env, s, st).runner, id)
  {
    if st.AtRunner? {
      R.StuckStays(env.digest, s.side.reqs, s.runner, st.runner, id);
      SilentKeepsEntries(s.runner, Do(env, s, st).runner, id, true);
      SilentKeepsEntries(s.runner, Do(env, s, st).runner, id, false);
    }
  }

  lemma {:induction false} StuckStaysStuck(env: C.Env, steps: seq<Step>, more: seq<Step>, id: string)
    requires R.Stuck(Run(env, START, steps).runner, id)
    ensures StuckSince(Run(env, START, steps).runner, Run(env, START, steps + more).runner, id)
  {
    if more == [] {
      assert steps + more == steps;
    } else {
      var init := more[..|more| - 1];
      StuckStaysStuck(env, steps, init, id);
      Reachable(env, steps + init);
      StuckByStep(env, Run(env, START, steps).runner, Run(env, START, steps + init), more[|more| - 1], id);
      LastStep(env, START, steps, more);
    }
  }

  lemma RunningMeansUnfinished(env: C.Env, s: System, id: string)
    requires Inv(env, s) && R.Stuck(s.runner, id)
    ensures R.NeverFinished(s.runner, id)
  {
    assert R.IdConsistent(s.runner, id);
  }

  /** A request id that is stuck once stays stuck through every continuation, restarts of
      both processes included: it never enters the effect phase again and never
      finishes, and its task is never VERIFYING or SUCCEEDED. */
  lemma StuckForGood(env: C.Env, steps: seq<Step>, more: seq<Step>, id: string, task: nat)
    requires R.Stuck(Run(env, START, steps).runner, id)
    ensures var s, s' := Run(env, START, steps), Run(env, START, steps + more);
            && StuckSince(s.runner, s'.runner, id) && R.NeverFinished(s'.runner, id)
            && (task in s'.side.council.tasks && RequestId(task, s'.side.council.tasks[task].planVersion) == id ==>
                  !Settled(s'.side.council.tasks[task]))
  {
    var s' := Run(env, START, steps + more);
    StuckStaysStuck(env, steps, more, id);
    Reachable(env, steps + more);
    RunningMeansUnfinished(env, s', id);
    if task in s'.side.council.tasks {
      assert VerifiedOk(s', task);
    }
  }

  /** The step brings the id into the state that blocks it. */
  predicate Blocks(env: C.Env, s: System, st: Step, id: string) {
    st.AtRunner? && R.Sticks(env.digest, s.side.reqs, s.runner, st.runner, id)
  }

  /** Some step of the run did. */
  predicate Blocked(env: C.Env, steps: seq<Step>, id: string) {
    steps != [] &&
    var init := steps[..|steps| - 1];
    Blocked(env, init, id) || Blocks(env, Run(env, START, init), steps[|steps| - 1], id)
  }

  lemma StuckStepExactly(env: C.Env, s: System, st: Step, id: string)
    requires Inv(env, s)
    ensures R.Stuck(Do(env, s, st).runner, id) <==> R.Stuck(s.runner, id) || Blocks(env, s, st, id)
  {
    if st.AtRunner? {
      if R.Stuck(s.runner, id) {
        R.StuckStays(env.digest, s.side.reqs, s.runner, st.runner, id);
      } else {
        R.StuckExactly(env.digest, s.side.reqs, s.runner, st.runner, id);
      }
    }
  }

  /** What blocks an id, over every run: it is stuck if and only if at some step the runner
      died while the id's row was running, or refused the approval of a call that held
      the claim on the id. */
  lemma {:induction false} WhatSticks(env: C.Env, steps: seq<Step>, id: string)
    ensures R.Stuck(Run(env, START, steps).runner, id) <==> Blocked(env, steps, id)
  {
    if steps != [] {
      var init := steps[..|steps| - 1];
      WhatSticks(env, init, id);
      Reachable(env, init);
      StuckStepExactly(env, Run(env, START, init), steps[|steps| - 1], id);
    }
  }
}
