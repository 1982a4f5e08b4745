/** Which plan a task ends up with: the one its deliberation returned, with two repairs. */
module Deliberation {
  import opened Results
  import opened Plans
  import opened Wire
  import opened Approvals
  import opened CouncilSteps
  import opened Lifecycle
  import opened LifecycleSafety
  import Hashing = Approval
  import C = CouncilProtocol

  /** The task holds the given plan: its version is the task's when the given one has none,
      and its criteria are the task's when the given ones are empty. */
  predicate Holds(t: Task, given: Plan, version: int, acceptance: seq<string>) {
    && t.plan.patches == given.patches && t.plan.commands == given.commands
    && t.plan.verification == given.verification && t.plan.recovery == given.recovery
    && t.plan.version == t.planVersion == (if given.version == 0 then version else given.version)
    && Elems(t.plan.acceptance) == (if Elems(given.acceptance) == [] then acceptance else Elems(given.acceptance))
  }

  /** The last section of startTask answers 200 exactly for a task in DRAFT or ANALYZING. The
      task then waits for approval with the plan of the deliberation, or its own without
      one, hashed for its run and workspace, and is otherwise as it was; any other answer
      changes nothing. */
  lemma FinishAnswers(c: Council, digest: Hashing.Digest, id: nat, plan: Option<Plan>)
    ensures var (c', code) := FinishStart(c, digest, id, plan);
            && (code == 200 <==> id in c.tasks && (c.tasks[id].state.Draft? || c.tasks[id].state.Analyzing?))
            && (code == 404 <==> id !in c.tasks) && (code != 200 ==> c' == c && (code == 404 || code == 409))
            && (code == 200 ==>
                  var t, t' := c.tasks[id], c'.tasks[id];
                  && c'.tasks == c.tasks[id := t']
                  && (plan.Some? ==> Holds(t', plan.value, t.planVersion, t.acceptance))
                  && (plan.None? ==> t'.plan == t.plan && t'.planVersion == t.planVersion)
                  && t'.approvalHash == digest(Hashing.Payload(TaskName(id), WorkspaceName(t.workspace),
                                                               Hashing.Canonical(t'.plan)))
                  && t'.state.AwaitingApproval? && t'.workspace == t.workspace && t'.acceptance == t.acceptance
                  && t'.approved == t.approved && t'.verification == t.verification)
  {
  }

  // ------------------------------------------------------------- the history

  /** The step makes the task. */
  predicate Creates(s: C.Side, st: Step, id: nat) {
    && st.AtCouncil? && st.council.Create? && s.holder.Free? && id == s.council.nextId + 1
    && st.council.acceptance != [] && st.council.workspace in s.council.workspaces
  }

  /** The step submits the plan a deliberation of the task returned. */
  predicate Submits(s: C.Side, st: Step, id: nat) {
    && st.AtCouncil? && st.council.DeliberationDone? && st.council.id == id
    && s.holder.Free? && id in s.starts && id in s.council.tasks && C.Preparing(s.council.tasks[id])
  }

  /** What the task was made with: its workspace and its acceptance criteria. */
  function Creation(env: C.Env, steps: seq<Step>, id: nat): Option<(nat, seq<string>)> {
    if steps == [] then None
    else
      var init, st := steps[..|steps| - 1], steps[|steps| - 1];
      if Creates(Run(env, START, init).side, st, id) then Some((st.council.workspace, st.council.acceptance))
      else Creation(env, init, id)
  }

  /** The plan the task's deliberation returned. */
  function Submission(env: C.Env, steps: seq<Step>, id: nat): Option<Plan> {
    if steps == [] then None
    else
      var init, st := steps[..|steps| - 1], steps[|steps| - 1];
      if Submits(Run(env, START, init).side, st, id) then Some(st.council.plan) else Submission(env, init, id)
  }

  /** The task keeps its plan, or loses the empty one it has in DRAFT. */
  predicate Kept(t: Task, t': Task) {
    && t'.workspace == t.workspace && t'.acceptance == t.acceptance && t'.planVersion == t.planVersion
    && (!C.Preparing(t) ==> !C.Preparing(t') && t'.plan == t.plan)
    && (C.Planned(t') ==> C.Planned(t))
  }

  lemma KeptByRestart(env: C.Env, replies: map<nat, Response>, s: C.Side, n: nat, id: nat)
    requires C.TablesOk(s) && id in s.council.tasks && C.TaskOk(env, s, id)
    ensures var s' := C.Do(env, replies, s, C.Restart(n));
            id in s'.council.tasks && Kept(s.council.tasks[id], s'.council.tasks[id])
  {
  }

  lemma SubmittedByStep(env: C.Env, replies: map<nat, Response>, s: C.Side, id: nat, plan: Plan)
    requires Submits(s, AtCouncil(C.DeliberationDone(id, plan)), id)
    ensures var t, s' := s.council.tasks[id], C.Do(env, replies, s, C.DeliberationDone(id, plan));
            && id in s'.council.tasks && Holds(s'.council.tasks[id], plan, t.planVersion, t.acceptance)
            && s'.council.tasks[id].workspace == t.workspace && s'.council.tasks[id].acceptance == t.acceptance
            && s'.council.tasks[id].state.AwaitingApproval? && s'.accepted == s.accepted
  {
    FinishAnswers(s.council, env.digest, id, Some(plan));
  }

  lemma KeptBySubmission(env: C.Env, replies: map<nat, Response>, s: C.Side, k: nat, plan: Plan, id: nat)
    requires id in s.council.tasks && s.holder.Free? && !Submits(s, AtCouncil(C.DeliberationDone(k, plan)), id)
    ensures var s' := C.Do(env, replies, s, C.DeliberationDone(k, plan));
            id in s'.council.tasks && Kept(s.council.tasks[id], s'.council.tasks[id])
  {
  }

  lemma KeptByLockStepOfStart(env: C.Env, replies: map<nat, Response>, s: C.Side, st: C.Step, id: nat)
    requires C.Starting(st) && !st.DeliberationDone? && env.deliberates
    requires id in s.council.tasks && s.holder.Free?
    ensures var s' := C.Do(env, replies, s, st);
            id in s'.council.tasks && Kept(s.council.tasks[id], s'.council.tasks[id])
  {
  }

  lemma KeptByLockStepOfRest(env: C.Env, replies: map<nat, Response>, s: C.Side, st: C.Step, id: nat)
    requires !C.Starting(st) && !st.Restart?
    requires id in s.council.tasks && s.holder.Free? && id <= s.council.nextId
    ensures var s' := C.Do(env, replies, s, st);
            id in s'.council.tasks && Kept(s.council.tasks[id], s'.council.tasks[id])
  {
  }

  lemma KeptByReply(env: C.Env, replies: map<nat, Response>, s: C.Side, id: nat)
    requires id in s.council.tasks && C.HolderOk(s) && !s.holder.Free?
    ensures var s' := C.Do(env, replies, s, C.TakeReply);
            id in s'.council.tasks && Kept(s.council.tasks[id], s'.council.tasks[id])
  {
  }

  lemma KeptByHeldStep(env: C.Env, replies: map<nat, Response>, s: C.Side, st: C.Step, id: nat)
    requires id in s.council.tasks && C.HolderOk(s) && !s.holder.Free? && !st.Restart? && !st.TakeReply?
    ensures var s' := C.Do(env, replies, s, st);
            id in s'.council.tasks && Kept(s.council.tasks[id], s'.council.tasks[id])
  {
  }

  lemma KeptByStep(env: C.Env, replies: map<nat, Response>, s: C.Side, st: C.Step, id: nat)
    requires env.deliberates && C.TablesOk(s) && C.HolderOk(s) && id in s.council.tasks && C.TaskOk(env, s, id)
    requires !Submits(s, AtCouncil(st), id)
    ensures var s' := C.Do(env, replies, s, st);
            id in s'.council.tasks && Kept(s.council.tasks[id], s'.council.tasks[id])
  {
    if st.Restart? {
      KeptByRestart(env, replies, s, st.nextId, id);
    } else if !s.holder.Free? && st.TakeReply? {
      KeptByReply(env, replies, s, id);
    } else if !s.holder.Free? {
      KeptByHeldStep(env, replies, s, st, id);
    } else if st.DeliberationDone? {
      KeptBySubmission(env, replies, s, st.id, st.plan, id);
    } else if C.Starting(st) {
      KeptByLockStepOfStart(env, replies, s, st, id);
    } else {
      KeptByLockStepOfRest(env, replies, s, st, id);
    }
  }

  lemma NewByStep(env: C.Env, replies: map<nat, Response>, s: C.Side, st: C.Step, id: nat)
    requires C.TablesOk(s) && id !in s.council.tasks
    ensures var s' := C.Do(env, replies, s, st);
            && (id in s'.council.tasks <==> Creates(s, AtCouncil(st), id))
            && (id in s'.council.tasks ==>
                  var t := s'.council.tasks[id];
                  t.state.Draft? && t.planVersion == 1 && t.workspace == st.workspace && t.acceptance == st.acceptance)
  {
  }

  /** What is accepted is a waiting task's. */
  lemma AcceptedByStep(env: C.Env, replies: map<nat, Response>, s: C.Side, st: C.Step, a: C.Acceptance)
    requires C.HolderOk(s) && a in C.Do(env, replies, s, st).accepted && a !in s.accepted
    ensures a.id in s.council.tasks && C.Planned(s.council.tasks[a.id])
  {
  }

  // ------------------------------------------------------------- over runs

  /** One task and its history. */
  predicate HistoryOk(s: C.Side, id: nat, made: Option<(nat, seq<string>)>, given: Option<Plan>) {
    if id !in s.council.tasks then made.None? && given.None?
    else
      var t := s.council.tasks[id];
      && made == Some((t.workspace, t.acceptance))
      && (C.Preparing(t) ==> t.planVersion == 1 && given.None?)
      && (C.Planned(t) ==> given.Some?)
      && (given.Some? ==> Holds(t, given.value, 1, t.acceptance))
  }

  lemma HistoryByStep(env: C.Env, s: System, st: C.Step, id: nat, made: Option<(nat, seq<string>)>, given: Option<Plan>)
    requires env.deliberates && Inv(env, s) && HistoryOk(s.side, id, made, given)
    ensures HistoryOk(Do(env, s, AtCouncil(st)).side, id,
                      if Creates(s.side, AtCouncil(st), id) then Some((st.workspace, st.acceptance)) else made,
                      if Submits(s.side, AtCouncil(st), id) then Some(st.plan) else given)
  {
    if id !in s.side.council.tasks {
      NewByStep(env, s.runner.replies, s.side, st, id);
    } else {
      assert C.TaskOk(env, s.side, id);
      if Submits(s.side, AtCouncil(st), id) {
        SubmittedByStep(env, s.runner.replies, s.side, id, st.plan);
      } else {
        KeptByStep(env, s.runner.replies, s.side, st, id);
      }
    }
  }

  lemma {:induction false} TaskHistory(env: C.Env, steps: seq<Step>, id: nat)
    requires env.deliberates
    ensures HistoryOk(Run(env, START, steps).side, id, Creation(env, steps, id), Submission(env, steps, id))
  {
    if steps != [] {
      var init, last := steps[..|steps| - 1], steps[|steps| - 1];
      TaskHistory(env, init, id);
      Reachable(env, init);
      if last.AtCouncil? {
        HistoryByStep(env, Run(env, START, init), last.council, id, Creation(env, init, id), Submission(env, init, id));
      }
    }
  }

  lemma {:induction false} AcceptedWasSubmitted(env: C.Env, steps: seq<Step>, a: C.Acceptance)
    requires env.deliberates && a in Run(env, START, steps).side.accepted
    ensures Submission(env, steps, a.id).Some?
  {
    var init, last := steps[..|steps| - 1], steps[|steps| - 1];
    var s := Run(env, START, init);
    if a in s.side.accepted {
      AcceptedWasSubmitted(env, init, a);
    } else {
      Reachable(env, init);
      AcceptedByStep(env, s.runner.replies, s.side, last.council, a);
      TaskHistory(env, init, a.id);
    }
  }

  /** With a council that deliberates, over every run: each request is for the workspace the
      task was created in and carries the patches, commands and verification commands that
      the task's deliberation returned, under the version and the criteria it returned or,
      where it returned none, version 1 and the criteria the task was created with. */
  lemma RequestsCarryDeliberatedPlans(env: C.Env, steps: seq<Step>, m: nat)
    requires env.deliberates && m < |Run(env, START, steps).side.reqs|
    ensures var s := Run(env, START, steps).side;
            && m < |s.origins|
            && var id, req := s.origins[m].what.id, s.reqs[m];
               var made, given := Creation(env, steps, id), Submission(env, steps, id);
               && made.Some? && given.Some?
               && req.runId == TaskName(id) && req.workspaceId == WorkspaceName(made.value.0)
               && req.patches == Elems(given.value.patches)
               && req.commands == PackAll(Elems(given.value.commands))
               && req.verification == PackAll(Elems(given.value.verification))
               && req.planVersion == Int32(if given.value.version == 0 then 1 else given.value.version)
               && req.acceptance
                  == if Elems(given.value.acceptance) == [] then made.value.1 else Elems(given.value.acceptance)
  {
    var s := Run(env, START, steps).side;
    Reachable(env, steps);
    assert C.OriginOk(env, s, m);
    var a := s.origins[m].what;
    AcceptedWasSubmitted(env, steps, a);
    TaskHistory(env, steps, a.id);
  }

  lemma StartAnalyzes(env: C.Env, replies: map<nat, Response>, s: C.Side, id: nat)
    requires env.deliberates && s.holder.Free? && id in s.council.tasks && s.council.tasks[id].state.Draft?
    requires C.TaskOk(env, s, id)
    ensures var s' := C.Do(env, replies, s, C.StartDeliberating(id));
            && s'.holder.Free? && id in s'.starts && id in s'.council.tasks
            && s'.council.tasks[id] == s.council.tasks[id].(state := Analyzing)
  {
  }

  /** A deliberation that fails leaves its task FAILED, in memory and in its row. */
  lemma FailedDeliberationFails(env: C.Env, steps: seq<Step>, id: nat)
    requires var s := Run(env, START, steps).side; s.holder.Free? && id in s.starts
    ensures var s' := Run(env, START, steps + [AtCouncil(C.DeliberationFailed(id))]).side;
            && id in s'.council.tasks && s'.council.tasks[id].state.Failed?
            && id in s'.council.db.tasks && s'.council.db.tasks[id] == s'.council.tasks[id]
  {
    var failed := steps + [AtCouncil(C.DeliberationFailed(id))];
    assert failed[..|steps|] == steps;
    Reachable(env, steps);
    Reachable(env, failed);
    assert C.TaskOk(env, Run(env, START, failed).side, id);
  }

  /** From any reachable state a task in DRAFT can be started whenever no handler holds the
      lock, and when its deliberation returns a plan, the task waits for approval with it. */
  lemma StartedTaskWaits(env: C.Env, steps: seq<Step>, id: nat, plan: Plan)
    requires env.deliberates
    requires var s := Run(env, START, steps).side;
             s.holder.Free? && id in s.council.tasks && s.council.tasks[id].state.Draft?
    ensures var s := Run(env, START, steps).side;
            var started := steps + [AtCouncil(C.StartDeliberating(id))];
            var s' := Run(env, START, started + [AtCouncil(C.DeliberationDone(id, plan))]).side;
            && id in s'.council.tasks && s'.council.tasks[id].state.AwaitingApproval?
            && Holds(s'.council.tasks[id], plan, 1, s.council.tasks[id].acceptance)
            && id in s'.council.db.tasks && s'.council.db.tasks[id] == s'.council.tasks[id]
  {
    var s := Run(env, START, steps);
    var started := steps + [AtCouncil(C.StartDeliberating(id))];
    var done := started + [AtCouncil(C.DeliberationDone(id, plan))];
    assert started[..|steps|] == steps && done[..|started|] == started;
    Reachable(env, steps);
    TaskHistory(env, steps, id);
    assert C.TaskOk(env, s.side, id);
    StartAnalyzes(env, s.runner.replies, s.side, id);
    SubmittedByStep(env, s.runner.replies, Run(env, START, started).side, id, plan);
    Reachable(env, done);
    assert C.TaskOk(env, Run(env, START, done).side, id);
  }
}
