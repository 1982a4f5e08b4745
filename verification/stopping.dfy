/** What stopping a task means: whatever happens later, nothing is sent for it. */
module Stopping {
  import opened Results
  import opened Plans
  import opened Wire
  import opened Approvals
  import opened CouncilSteps
  import opened Lifecycle
  import opened LifecycleSafety
  import C = CouncilProtocol
  import R = RunnerProtocol

  /** Stopped, or failed. */
  predicate Off(t: Task) { t.state.Cancelled? || t.state.Failed? }

  lemma OffByLockStepOfStart(env: C.Env, replies: map<nat, Response>, s: C.Side, st: C.Step, id: nat)
    requires C.Starting(st) && id in s.council.tasks && s.holder.Free? && Off(s.council.tasks[id])
    ensures var s' := C.Do(env, replies, s, st); id in s'.council.tasks && Off(s'.council.tasks[id])
  {
  }

  lemma OffByLockStepOfRest(env: C.Env, replies: map<nat, Response>, s: C.Side, st: C.Step, id: nat)
    requires !C.Starting(st) && !st.Restart? && id in s.council.tasks && id <= s.council.nextId
    requires s.holder.Free? && Off(s.council.tasks[id])
    ensures var s' := C.Do(env, replies, s, st); id in s'.council.tasks && Off(s'.council.tasks[id])
  {
  }

  lemma OffByHeldStep(env: C.Env, replies: map<nat, Response>, s: C.Side, st: C.Step, id: nat)
    requires id in s.council.tasks && C.HolderOk(s) && !s.holder.Free? && !st.Restart? && Off(s.council.tasks[id])
    ensures var s' := C.Do(env, replies, s, st); id in s'.council.tasks && Off(s'.council.tasks[id])
  {
  }

  lemma OffByRestart(env: C.Env, replies: map<nat, Response>, s: C.Side, n: nat, id: nat)
    requires C.TablesOk(s) && id in s.council.tasks && C.TaskOk(env, s, id) && Off(s.council.tasks[id])
    ensures var s' := C.Do(env, replies, s, C.Restart(n)); id in s'.council.tasks && Off(s'.council.tasks[id])
  {
  }

  lemma OffByStep(env: C.Env, s: System, st: Step, id: nat)
    requires Inv(env, s) && id in s.side.council.tasks && Off(s.side.council.tasks[id])
    ensures var c := Do(env, s, st).side.council; id in c.tasks && Off(c.tasks[id])
  {
    if st.AtCouncil? {
      assert C.TaskOk(env, s.side, id);
      if st.council.Restart? {
        OffByRestart(env, s.runner.replies, s.side, st.council.nextId, id);
      } else if !s.side.holder.Free? {
        OffByHeldStep(env, s.runner.replies, s.side, st.council, id);
      } else if C.Starting(st.council) {
        OffByLockStepOfStart(env, s.runner.replies, s.side, st.council, id);
      } else {
        OffByLockStepOfRest(env, s.runner.replies, s.side, st.council, id);
      }
    }
  }

  lemma {:induction false} StaysOff(env: C.Env, steps: seq<Step>, more: seq<Step>, id: nat)
    requires var c := Run(env, START, steps).side.council; id in c.tasks && Off(c.tasks[id])
    ensures var c := Run(env, START, steps + more).side.council; id in c.tasks && Off(c.tasks[id])
  {
    if more == [] {
      assert steps + more == steps;
    } else {
      var init := more[..|more| - 1];
      StaysOff(env, steps, init, id);
      Reachable(env, steps + init);
      OffByStep(env, Run(env, START, steps + init), more[|more| - 1], id);
      LastStep(env, START, steps, more);
    }
  }

  lemma StopStops(env: C.Env, replies: map<nat, Response>, s: C.Side, id: nat)
    requires s.holder.Free? && id in s.council.tasks && C.TaskOk(env, s, id)
    ensures var s', t := C.Do(env, replies, s, C.StopTask(id)), s.council.tasks[id];
            && s'.council.tasks == s.council.tasks[id := t.(state := Cancelled, approved := false)]
            && s'.council.db.tasks[id] == s'.council.tasks[id] && s'.origins == s.origins
  {
  }

  /** Stopping a task takes effect whenever no handler holds the lock, whatever state the task
      is in. From then on, over every continuation and restarts included, the task is
      CANCELLED or, when its deliberation fails afterwards, FAILED, its row agrees, and no
      request for it is sent. */
  lemma StoppedForGood(env: C.Env, steps: seq<Step>, more: seq<Step>, id: nat)
    requires var s := Run(env, START, steps).side; s.holder.Free? && id in s.council.tasks
    ensures var s, s' := Run(env, START, steps).side,
                         Run(env, START, steps + [AtCouncil(C.StopTask(id))] + more).side;
            && id in s'.council.tasks && Off(s'.council.tasks[id])
            && id in s'.council.db.tasks && s'.council.db.tasks[id] == s'.council.tasks[id]
            && (more == [] ==> s'.council.tasks[id].state.Cancelled? && !s'.council.tasks[id].approved)
            && s.origins <= s'.origins
            && forall m :: |s.origins| <= m < |s'.origins| ==> s'.origins[m].what.id != id
  {
    var stop := steps + [AtCouncil(C.StopTask(id))];
    var s, now, s' := Run(env, START, steps), Run(env, START, stop).side, Run(env, START, stop + more).side;
    assert stop[..|steps|] == steps;
    Reachable(env, steps);
    assert C.TaskOk(env, s.side, id);
    StopStops(env, s.runner.replies, s.side, id);
    StaysOff(env, stop, more, id);
    NothingGoesBack(env, stop, more);
    Reachable(env, stop + more);
    assert C.TaskOk(env, s', id);
    assert more == [] ==> stop + more == stop;
  }
}
