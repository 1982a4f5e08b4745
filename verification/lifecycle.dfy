/** Council and runner together: every interleaving of the council's sections, its
    restarts, lost replies, the runner's steps and crashes, and requests delivered
    late or more than once. */
module Lifecycle {
  import opened Results
  import opened Text
  import opened Plans
  import opened Wire
  import opened Approvals
  import opened CouncilSteps
  import Approval
  import C = CouncilProtocol
  import R = RunnerProtocol

  datatype System = System(side: C.Side, runner: R.Runner)

  datatype Step = AtCouncil(council: C.Step) | AtRunner(runner: R.Step)

  const START := System(C.EMPTY, R.IDLE)

  function Do(env: C.Env, s: System, st: Step): System {
    match st
    case AtCouncil(c) => s.(side := C.Do(env, s.runner.replies, s.side, c))
    case AtRunner(r) => s.(runner := R.Do(env.digest, s.side.reqs, s.runner, r))
  }

  function Run(env: C.Env, s: System, steps: seq<Step>): System {
    if steps == [] then s else Do(env, Run(env, s, steps[..|steps| - 1]), steps[|steps| - 1])
  }

  lemma {:induction false} RunAppend(env: C.Env, s: System, steps: seq<Step>, more: seq<Step>)
    ensures Run(env, s, steps + more) == Run(env, Run(env, s, steps), more)
  {
    if more == [] {
      assert steps + more == steps;
    } else {
      assert (steps + more)[..|steps + more| - 1] == steps + more[..|more| - 1];
      RunAppend(env, s, steps, more[..|more| - 1]);
    }
  }

  // ------------------------------------------------------------- invariant

  /** A task in VERIFYING or SUCCEEDED holds a response the runner finished for its id. */
  predicate VerifiedOk(s: System, id: nat)
    requires id in s.side.council.tasks
  {
    var t := s.side.council.tasks[id];
    t.state.Verifying? || t.state.Succeeded? ==>
      && t.verification.Some? && t.verification.value.status == "SUCCEEDED"
      && t.verification.value.requestId == RequestId(id, t.planVersion)
      && R.HasFinished(s.runner, RequestId(id, t.planVersion), t.verification.value)
  }

  ghost predicate Inv(env: C.Env, s: System) {
    && C.Inv(env, s.side)
    && R.Inv(s.runner, s.side.reqs)
    && forall id :: id in s.side.council.tasks ==> VerifiedOk(s, id)
  }

  lemma RepliesHaveIds(env: C.Env, s: System)
    requires C.OriginsOk(env, s.side) && R.RepliesConsistent(s.runner, s.side.reqs)
    ensures C.RepliesHaveIds(s.runner.replies)
  {
    forall m | m in s.runner.replies ensures s.runner.replies[m].requestId != "" {
      assert C.OriginOk(env, s.side, m);
    }
  }

  predicate Settled(t: Task) { t.state.Verifying? || t.state.Succeeded? }

  /** A task becomes or stays verified by keeping what it has, or by taking the reply
      the council waits for. */
  predicate VerifiedFrom(s: C.Side, replies: map<nat, Response>, id: nat, t: Task, t': Task) {
    Settled(t') ==>
      && t'.planVersion == t.planVersion
      && ((Settled(t) && t'.verification == t.verification)
          || (s.holder.Waiting? && s.holder.id == id && s.holder.msg in replies
              && t'.verification == Some(replies[s.holder.msg]) && replies[s.holder.msg].status == "SUCCEEDED"))
  }

  lemma VerifiedByRestart(env: C.Env, replies: map<nat, Response>, s: C.Side, n: nat, id: nat)
    requires id in s.council.tasks && C.TaskOk(env, s, id)
    ensures var s' := C.Do(env, replies, s, C.Restart(n));
            id in s'.council.tasks && VerifiedFrom(s, replies, id, s.council.tasks[id], s'.council.tasks[id])
  {
  }

  lemma VerifiedByLockStepOfStart(env: C.Env, replies: map<nat, Response>, s: C.Side, st: C.Step, id: nat)
    requires C.Starting(st)
    requires id in s.council.tasks && s.holder.Free? && !st.Restart?
    ensures var s' := C.Do(env, replies, s, st);
            id in s'.council.tasks && VerifiedFrom(s, replies, id, s.council.tasks[id], s'.council.tasks[id])
  {
  }

  lemma VerifiedByLockStepOfRest(env: C.Env, replies: map<nat, Response>, s: C.Side, st: C.Step, id: nat)
    requires !C.Starting(st)
    requires id in s.council.tasks && s.holder.Free? && !st.Restart?
    ensures var s' := C.Do(env, replies, s, st);
            id in s'.council.tasks && VerifiedFrom(s, replies, id, s.council.tasks[id], s'.council.tasks[id])
  {
  }

  lemma VerifiedByLockStep(env: C.Env, replies: map<nat, Response>, s: C.Side, st: C.Step, id: nat)
    requires id in s.council.tasks && s.holder.Free? && !st.Restart?
    ensures var s' := C.Do(env, replies, s, st);
            id in s'.council.tasks && VerifiedFrom(s, replies, id, s.council.tasks[id], s'.council.tasks[id])
  {
    if C.Starting(st) {
      VerifiedByLockStepOfStart(env, replies, s, st, id);
    } else {
      VerifiedByLockStepOfRest(env, replies, s, st, id);
    }
  }

  lemma VerifiedByHeldStep(env: C.Env, replies: map<nat, Response>, s: C.Side, st: C.Step, id: nat)
    requires id in s.council.tasks && C.HolderOk(s) && !s.holder.Free? && !st.Restart?
    ensures var s' := C.Do(env, replies, s, st);
            id in s'.council.tasks && VerifiedFrom(s, replies, id, s.council.tasks[id], s'.council.tasks[id])
  {
  }

  lemma VerifiedChange(env: C.Env, replies: map<nat, Response>, s: C.Side, st: C.Step, id: nat)
    requires id in s.council.tasks && C.TaskOk(env, s, id) && C.HolderOk(s)
    ensures var s' := C.Do(env, replies, s, st);
            id in s'.council.tasks && VerifiedFrom(s, replies, id, s.council.tasks[id], s'.council.tasks[id])
  {
    if st.Restart? {
      VerifiedByRestart(env, replies, s, st.nextId, id);
    } else if s.holder.Free? {
      VerifiedByLockStep(env, replies, s, st, id);
    } else {
      VerifiedByHeldStep(env, replies, s, st, id);
    }
  }

  lemma NewTaskUnverified(env: C.Env, replies: map<nat, Response>, s: C.Side, st: C.Step, id: nat)
    requires C.TablesOk(s) && id !in s.council.tasks && id in C.Do(env, replies, s, st).council.tasks
    ensures !Settled(C.Do(env, replies, s, st).council.tasks[id])
  {
  }

  lemma ReplyVerifies(env: C.Env, s: System, id: nat)
    requires C.OriginsOk(env, s.side) && R.RepliesConsistent(s.runner, s.side.reqs) && C.HolderOk(s.side)
    requires s.side.holder.Waiting? && s.side.holder.id == id && s.side.holder.msg in s.runner.replies
    ensures var r := s.runner.replies[s.side.holder.msg];
            && r.requestId == RequestId(id, s.side.council.tasks[id].planVersion)
            && R.HasFinished(s.runner, r.requestId, r)
  {
    assert C.OriginOk(env, s.side, s.side.holder.msg);
  }

  lemma CouncilKeepsVerified(env: C.Env, s: System, c: C.Step, id: nat)
    requires Inv(env, s) && id in Do(env, s, AtCouncil(c)).side.council.tasks
    ensures VerifiedOk(Do(env, s, AtCouncil(c)), id)
  {
    if id in s.side.council.tasks {
      assert VerifiedOk(s, id) && C.TaskOk(env, s.side, id);
      VerifiedChange(env, s.runner.replies, s.side, c, id);
      if s.side.holder.Waiting? && s.side.holder.id == id && s.side.holder.msg in s.runner.replies {
        ReplyVerifies(env, s, id);
      }
    } else {
      NewTaskUnverified(env, s.runner.replies, s.side, c, id);
    }
  }

  lemma CouncilStepKeeps(env: C.Env, s: System, c: C.Step)
    requires Inv(env, s)
    ensures Inv(env, Do(env, s, AtCouncil(c)))
    ensures C.AllOnward(s.side, Do(env, s, AtCouncil(c)).side)
  {
    var s' := Do(env, s, AtCouncil(c));
    RepliesHaveIds(env, s);
    C.StepKeeps(env, s.runner.replies, s.side, c);
    R.MoreRequests(s.runner, s.side.reqs, s'.side.reqs);
    forall id | id in s'.side.council.tasks ensures VerifiedOk(s', id) {
      CouncilKeepsVerified(env, s, c, id);
    }
  }

  lemma RunnerStepKeeps(env: C.Env, s: System, r: R.Step)
    requires Inv(env, s)
    ensures Inv(env, Do(env, s, AtRunner(r)))
  {
    var s' := Do(env, s, AtRunner(r));
    R.StepKeepsInv(env.digest, s.side.reqs, s.runner, r);
    R.LogGrows(env.digest, s.side.reqs, s.runner, r);
    forall id | id in s'.side.council.tasks ensures VerifiedOk(s', id) {
      assert VerifiedOk(s, id);
    }
  }

  /** Every reachable state satisfies the invariant. */
  lemma {:induction false} Reachable(env: C.Env, steps: seq<Step>)
    ensures Inv(env, Run(env, START, steps))
  {
    if steps == [] {
      C.InitInv(env);
      R.InitInv([]);
    } else {
      Reachable(env, steps[..|steps| - 1]);
      var s := Run(env, START, steps[..|steps| - 1]);
      match steps[|steps| - 1]
      case AtCouncil(c) => CouncilStepKeeps(env, s, c);
      case AtRunner(r) => RunnerStepKeeps(env, s, r);
    }
  }
}
