/** What a restart of the council does to tasks still in DRAFT. */
module DraftRestart {
  import opened Results
  import opened Plans
  import opened Wire
  import opened Approvals
  import opened CouncilSteps
  import opened Lifecycle
  import opened LifecycleSafety
  import Approval
  import C = CouncilProtocol

  const FIRST_PLAN := NO_PLAN.(version := 1)

  /** A restart that takes place. */
  predicate Restarts(s: C.Side, st: Step) {
    st.AtCouncil? && st.council.Restart? && IsLastId(s.council.db, st.council.nextId)
  }

  /** The council was restarted while the task existed. */
  predicate RestartedSince(env: C.Env, steps: seq<Step>, id: nat) {
    steps != [] &&
    var before := Run(env, START, steps[..|steps| - 1]).side;
    || RestartedSince(env, steps[..|steps| - 1], id)
    || (id in before.council.tasks && Restarts(before, steps[|steps| - 1]))
  }

  /** A task in DRAFT: its plan, and its row without one. */
  predicate DraftIs(c: Council, id: nat, plan: Plan) {
    id in c.tasks && id in c.db.tasks && c.tasks[id].state.Draft? ==>
      c.tasks[id].planVersion == 1 && c.tasks[id].plan == plan && c.db.tasks[id].plan == NO_PLAN
  }

  lemma DraftByRestart(env: C.Env, replies: map<nat, Response>, s: C.Side, n: nat, id: nat, plan: Plan)
    requires C.TablesOk(s) && DraftIs(s.council, id, plan) && IsLastId(s.council.db, n)
    requires id in s.council.tasks && C.TaskOk(env, s, id)
    ensures DraftIs(C.Do(env, replies, s, C.Restart(n)).council, id, NO_PLAN)
  {
  }

  lemma DraftByLockStepOfStart(env: C.Env, replies: map<nat, Response>, s: C.Side, st: C.Step, id: nat, plan: Plan)
    requires C.Starting(st)
    requires s.holder.Free? && !st.Restart? && id in s.council.tasks && id in s.council.db.tasks
    requires DraftIs(s.council, id, plan) && id <= s.council.nextId
    ensures DraftIs(C.Do(env, replies, s, st).council, id, plan)
  {
  }

  lemma DraftByLockStepOfRest(env: C.Env, replies: map<nat, Response>, s: C.Side, st: C.Step, id: nat, plan: Plan)
    requires !C.Starting(st)
    requires s.holder.Free? && !st.Restart? && id in s.council.tasks && id in s.council.db.tasks
    requires DraftIs(s.council, id, plan) && id <= s.council.nextId
    ensures DraftIs(C.Do(env, replies, s, st).council, id, plan)
  {
  }

  lemma DraftByLockStep(env: C.Env, replies: map<nat, Response>, s: C.Side, st: C.Step, id: nat, plan: Plan)
    requires s.holder.Free? && !st.Restart? && id in s.council.tasks && id in s.council.db.tasks
    requires DraftIs(s.council, id, plan) && id <= s.council.nextId
    ensures DraftIs(C.Do(env, replies, s, st).council, id, plan)
  {
    if C.Starting(st) {
      DraftByLockStepOfStart(env, replies, s, st, id, plan);
    } else {
      DraftByLockStepOfRest(env, replies, s, st, id, plan);
    }
  }

  lemma DraftByHeldStep(env: C.Env, replies: map<nat, Response>, s: C.Side, st: C.Step, id: nat, plan: Plan)
    requires C.HolderOk(s) && !s.holder.Free? && !st.Restart? && id in s.council.tasks && id in s.council.db.tasks
    requires DraftIs(s.council, id, plan)
    ensures DraftIs(C.Do(env, replies, s, st).council, id, plan)
  {
  }

  lemma DraftWhenNew(env: C.Env, replies: map<nat, Response>, s: C.Side, st: C.Step, id: nat)
    requires C.TablesOk(s) && id !in s.council.tasks && id in C.Do(env, replies, s, st).council.tasks
    ensures DraftIs(C.Do(env, replies, s, st).council, id, FIRST_PLAN)
  {
  }

  lemma DraftByStep(env: C.Env, s: System, st: C.Step, id: nat, plan: Plan)
    requires Inv(env, s) && id in s.side.council.tasks && DraftIs(s.side.council, id, plan)
    ensures DraftIs(Do(env, s, AtCouncil(st)).side.council, id,
                    if Restarts(s.side, AtCouncil(st)) then NO_PLAN else plan)
  {
    assert C.TaskOk(env, s.side, id);
    if st.Restart? {
      if IsLastId(s.side.council.db, st.nextId) {
        DraftByRestart(env, s.runner.replies, s.side, st.nextId, id, plan);
      }
    } else if s.side.holder.Free? {
      DraftByLockStep(env, s.runner.replies, s.side, st, id, plan);
    } else {
      DraftByHeldStep(env, s.runner.replies, s.side, st, id, plan);
    }
  }

  lemma {:induction false} NoTaskNoRestart(env: C.Env, steps: seq<Step>, id: nat)
    requires id !in Run(env, START, steps).side.council.tasks
    ensures !RestartedSince(env, steps, id)
  {
    if steps != [] {
      var init := steps[..|steps| - 1];
      Reachable(env, init);
      StepIsOnward(env, Run(env, START, init), steps[|steps| - 1]);
      NoTaskNoRestart(env, init, id);
    }
  }

  /** A task in DRAFT has the plan it was made with, with version 1, exactly until the
      council is restarted; its row never has one. */
  lemma {:induction false} DraftPlan(env: C.Env, steps: seq<Step>, id: nat)
    ensures DraftIs(Run(env, START, steps).side.council, id,
                    if RestartedSince(env, steps, id) then NO_PLAN else FIRST_PLAN)
  {
    if steps != [] {
      var init, last := steps[..|steps| - 1], steps[|steps| - 1];
      var s := Run(env, START, init);
      DraftPlan(env, init, id);
      Reachable(env, init);
      if id !in s.side.council.tasks {
        NoTaskNoRestart(env, init, id);
      }
      if last.AtCouncil? {
        if id in s.side.council.tasks {
          assert C.TaskOk(env, s.side, id);
          DraftByStep(env, s, last.council, id, if RestartedSince(env, init, id) then NO_PLAN else FIRST_PLAN);
        } else if id in Do(env, s, last).side.council.tasks {
          DraftWhenNew(env, s.runner.replies, s.side, last.council, id);
        }
      }
    }
  }

  lemma StartSubmits(env: C.Env, replies: map<nat, Response>, s: C.Side, id: nat)
    requires !env.deliberates && s.holder.Free? && id in s.council.tasks && s.council.tasks[id].state.Draft?
    requires C.TaskOk(env, s, id)
    ensures var c' := C.Do(env, replies, s, C.StartPlain(id)).council;
            id in c'.tasks && c'.tasks[id] == C.Submitted(env, id, s.council.tasks[id])
  {
    C.SaveStepSets(env, replies, s, C.StartPlain(id));
  }

  lemma SubmittedIsAccepted(env: C.Env, c: Council, id: nat, t: Task)
    requires Approval.Injective(env.digest)
    requires t.planVersion == 1 && (t.plan == NO_PLAN || t.plan == FIRST_PLAN)
    requires id in c.tasks && c.tasks[id] == C.Submitted(env, id, t)
    ensures c.tasks[id].state.AwaitingApproval?
    ensures RunnerAccepts(env.digest, RequestFor(c, id)) <==> t.plan == FIRST_PLAN
  {
    ApprovalSurvivesTheWire(env.digest, RequestId(id, 1), TaskName(id), WorkspaceName(t.workspace), 1, t.plan);
  }

  lemma DraftIsStarted(env: C.Env, replies: map<nat, Response>, s: C.Side, id: nat, plan: Plan)
    requires Approval.Injective(env.digest) && !env.deliberates && s.holder.Free?
    requires id in s.council.tasks && s.council.tasks[id].state.Draft? && C.TaskOk(env, s, id)
    requires DraftIs(s.council, id, plan) && (plan == NO_PLAN || plan == FIRST_PLAN)
    ensures var c := C.Do(env, replies, s, C.StartPlain(id)).council;
            && id in c.tasks && c.tasks[id].state.AwaitingApproval?
            && (RunnerAccepts(env.digest, RequestFor(c, id)) <==> plan == FIRST_PLAN)
  {
    StartSubmits(env, replies, s, id);
    SubmittedIsAccepted(env, C.Do(env, replies, s, C.StartPlain(id)).council, id, s.council.tasks[id]);
  }

  /** Without a council, in every reachable state: starting a task in DRAFT submits it for
      approval, and the runner accepts the request of what it submits if and only if the
      council was not restarted since the task was created. */
  lemma DraftRestartIsFatal(env: C.Env, steps: seq<Step>, id: nat)
    requires Approval.Injective(env.digest) && !env.deliberates
    requires var s := Run(env, START, steps).side;
             s.holder.Free? && id in s.council.tasks && s.council.tasks[id].state.Draft?
    ensures var c := Do(env, Run(env, START, steps), AtCouncil(C.StartPlain(id))).side.council;
            && id in c.tasks && c.tasks[id].state.AwaitingApproval?
            && (RunnerAccepts(env.digest, RequestFor(c, id)) <==> !RestartedSince(env, steps, id))
  {
    var s := Run(env, START, steps);
    Reachable(env, steps);
    assert C.TaskOk(env, s.side, id);
    DraftPlan(env, steps, id);
    DraftIsStarted(env, s.runner.replies, s.side, id, if RestartedSince(env, steps, id) then NO_PLAN else FIRST_PLAN);
  }
}
