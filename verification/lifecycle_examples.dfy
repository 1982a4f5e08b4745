/** Runs that show where the lifecycle falls short, and one that shows it working. */
module LifecycleExamples {
  import opened Results
  import opened Plans
  import opened Wire
  import opened Approvals
  import opened CouncilSteps
  import opened Lifecycle
  import opened LifecycleSafety
  import Approval
  import DraftRestart
  import Idempotency
  import Refinement
  import C = CouncilProtocol
  import R = RunnerProtocol

  // ------------------------------------------------------ overlapping calls

  /** No call is being served, and nothing is known of the id. */
  predicate Quiet(r: R.Runner, id: string) {
    r.calls == map[] && id !in r.table && id !in r.memory.done && id !in r.memory.running
  }

  predicate Deliverable(digest: Approval.Digest, reqs: seq<Request>, m: nat) {
    m < |reqs| && reqs[m].requestId != "" && RunnerAccepts(digest, reqs[m])
  }

  /** Two calls with one request look before either begins; the first begins, is verified
      and completes; then the second begins and is verified. */
  function Overlap(m: nat, answer: Response): seq<R.Step> {
    [R.Arrive(0, m), R.Arrive(1, m), R.Look(0), R.Look(1)] + [R.Begin(0), R.Verify(0)]
    + [R.Complete(0, answer), R.Begin(1), R.Verify(1)]
  }

  function BothLooked(digest: Approval.Digest, reqs: seq<Request>, r: R.Runner, m: nat): R.Runner {
    var r1 := R.Do(digest, reqs, r, R.Arrive(0, m));
    var r2 := R.Do(digest, reqs, r1, R.Arrive(1, m));
    var r3 := R.Do(digest, reqs, r2, R.Look(0));
    R.Do(digest, reqs, r3, R.Look(1))
  }

  function FirstVerified(digest: Approval.Digest, reqs: seq<Request>, r: R.Runner, m: nat): R.Runner {
    R.Do(digest, reqs, R.Do(digest, reqs, BothLooked(digest, reqs, r, m), R.Begin(0)), R.Verify(0))
  }

  function FirstCompleted(digest: Approval.Digest, reqs: seq<Request>, r: R.Runner, m: nat, answer: Response): R.Runner
  {
    R.Do(digest, reqs, FirstVerified(digest, reqs, r, m), R.Complete(0, answer))
  }

  function SecondVerified(digest: Approval.Digest, reqs: seq<Request>, r: R.Runner, m: nat, answer: Response): R.Runner
  {
    R.Do(digest, reqs, R.Do(digest, reqs, FirstCompleted(digest, reqs, r, m, answer), R.Begin(1)), R.Verify(1))
  }

  lemma BothArrivedIs(digest: Approval.Digest, reqs: seq<Request>, r: R.Runner, m: nat)
    requires Deliverable(digest, reqs, m) && Quiet(r, reqs[m].requestId)
    ensures var call := R.Call(m, reqs[m].requestId, R.Arrived);
            R.Do(digest, reqs, R.Do(digest, reqs, r, R.Arrive(0, m)), R.Arrive(1, m))
            == r.(calls := map[0 := call, 1 := call])
  {
  }

  lemma LookMisses(digest: Approval.Digest, reqs: seq<Request>, r: R.Runner, c: nat)
    requires R.At(r, c, R.Arrived) && r.calls[c].id !in r.table && r.calls[c].id !in r.memory.done
    ensures R.Do(digest, reqs, r, R.Look(c)) == R.Move(r, c, R.Missed)
  {
  }

  lemma VerifyEnters(digest: Approval.Digest, reqs: seq<Request>, r: R.Runner, c: nat)
    requires c in r.calls && r.calls[c].phase.Begun? && r.calls[c].msg < |reqs|
    requires RunnerAccepts(digest, reqs[r.calls[c].msg])
    ensures var claimed := r.calls[c].phase.claimed;
            R.Do(digest, reqs, r, R.Verify(c))
            == R.Move(r, c, R.Performing(claimed)).(log := r.log + [R.Entered(r.calls[c].id, claimed)])
  {
  }

  lemma BothLookedIs(digest: Approval.Digest, reqs: seq<Request>, r: R.Runner, m: nat)
    requires Deliverable(digest, reqs, m) && Quiet(r, reqs[m].requestId)
    ensures var call := R.Call(m, reqs[m].requestId, R.Missed);
            BothLooked(digest, reqs, r, m) == r.(calls := map[0 := call, 1 := call])
  {
    var arrived, missed := R.Call(m, reqs[m].requestId, R.Arrived), R.Call(m, reqs[m].requestId, R.Missed);
    BothArrivedIs(digest, reqs, r, m);
    LookMisses(digest, reqs, r.(calls := map[0 := arrived, 1 := arrived]), 0);
    LookMisses(digest, reqs, r.(calls := map[0 := missed, 1 := arrived]), 1);
  }

  /** The calls 0 and 1 of this request, at these phases. */
  function Two(m: nat, id: string, first: R.Phase, second: R.Phase): map<nat, R.Call> {
    map[0 := R.Call(m, id, first), 1 := R.Call(m, id, second)]
  }

  lemma FirstBegins(digest: Approval.Digest, reqs: seq<Request>, r: R.Runner, m: nat, id: string)
    requires r.calls == Two(m, id, R.Missed, R.Missed)
    requires id !in r.table && id !in r.memory.done && id !in r.memory.running
    ensures var r' := R.Do(digest, reqs, r, R.Begin(0));
            r'.calls == Two(m, id, R.Begun(true), R.Missed) && r'.log == r.log
  {
  }

  lemma FirstEnters(digest: Approval.Digest, reqs: seq<Request>, r: R.Runner, m: nat, id: string)
    requires r.calls == Two(m, id, R.Begun(true), R.Missed) && m < |reqs| && RunnerAccepts(digest, reqs[m])
    ensures var r' := R.Do(digest, reqs, r, R.Verify(0));
            r'.calls == Two(m, id, R.Performing(true), R.Missed) && r'.log == r.log + [R.Entered(id, true)]
  {
    VerifyEnters(digest, reqs, r, 0);
  }

  lemma FirstVerifiedIs(digest: Approval.Digest, reqs: seq<Request>, r: R.Runner, m: nat)
    requires Deliverable(digest, reqs, m) && Quiet(r, reqs[m].requestId)
    ensures var id := reqs[m].requestId;
            var r' := FirstVerified(digest, reqs, r, m);
            r'.calls == Two(m, id, R.Performing(true), R.Missed) && r'.log == r.log + [R.Entered(id, true)]
  {
    var id := reqs[m].requestId;
    var looked := r.(calls := Two(m, id, R.Missed, R.Missed));
    BothLookedIs(digest, reqs, r, m);
    FirstBegins(digest, reqs, looked, m, id);
    FirstEnters(digest, reqs, R.Do(digest, reqs, looked, R.Begin(0)), m, id);
  }

  lemma DropFirst(a: R.Call, b: R.Call)
    ensures map[0 := a, 1 := b] - {0} == map[1 := b]
  {
  }

  lemma FirstCompletes(digest: Approval.Digest, reqs: seq<Request>, r: R.Runner, m: nat, id: string, answer: Response)
    requires r.calls == Two(m, id, R.Performing(true), R.Missed)
    ensures var r' := R.Do(digest, reqs, r, R.Complete(0, answer));
            && r'.calls == map[1 := R.Call(m, id, R.Missed)] && id in r'.memory.done
            && r'.log == r.log + [R.Finished(id, true, answer.(requestId := id))]
  {
    DropFirst(R.Call(m, id, R.Performing(true)), R.Call(m, id, R.Missed));
  }

  lemma FirstCompletedIs(digest: Approval.Digest, reqs: seq<Request>, r: R.Runner, m: nat, answer: Response)
    requires Deliverable(digest, reqs, m) && Quiet(r, reqs[m].requestId)
    ensures var id := reqs[m].requestId;
            var r' := FirstCompleted(digest, reqs, r, m, answer);
            && r'.calls == map[1 := R.Call(m, id, R.Missed)] && id in r'.memory.done
            && r'.log == r.log + [R.Entered(id, true)] + [R.Finished(id, true, answer.(requestId := id))]
  {
    FirstVerifiedIs(digest, reqs, r, m);
    FirstCompletes(digest, reqs, FirstVerified(digest, reqs, r, m), m, reqs[m].requestId, answer);
  }

  lemma SecondVerifiedIs(digest: Approval.Digest, reqs: seq<Request>, r: R.Runner, m: nat, answer: Response)
    requires Deliverable(digest, reqs, m) && Quiet(r, reqs[m].requestId)
    ensures var id := reqs[m].requestId;
            SecondVerified(digest, reqs, r, m, answer).log
            == r.log + [R.Entered(id, true)] + [R.Finished(id, true, answer.(requestId := id))] + [R.Entered(id, false)]
  {
    FirstCompletedIs(digest, reqs, r, m, answer);
  }

  // ------------------------------------------------ the same, as part of a run

  /** A step of the runner alone. */
  lemma RunnerStep(env: C.Env, s: System, steps: seq<Step>, r: R.Step)
    ensures var before, after := Run(env, s, steps), Run(env, s, steps + [AtRunner(r)]);
            after == before.(runner := R.Do(env.digest, before.side.reqs, before.runner, r))
  {
    assert (steps + [AtRunner(r)])[..|steps|] == steps;
  }

  function Runners(steps: seq<R.Step>): seq<Step> {
    if steps == [] then [] else Runners(steps[..|steps| - 1]) + [AtRunner(steps[|steps| - 1])]
  }

  function Serve(digest: Approval.Digest, reqs: seq<Request>, r: R.Runner, steps: seq<R.Step>): R.Runner {
    if steps == [] then r
    else R.Do(digest, reqs, Serve(digest, reqs, r, steps[..|steps| - 1]), steps[|steps| - 1])
  }

  lemma {:induction false} RunnersRun(env: C.Env, s: System, steps: seq<R.Step>)
    ensures Run(env, s, Runners(steps)) == s.(runner := Serve(env.digest, s.side.reqs, s.runner, steps))
  {
    if steps != [] {
      RunnersRun(env, s, steps[..|steps| - 1]);
      RunnerStep(env, s, Runners(steps[..|steps| - 1]), steps[|steps| - 1]);
    }
  }

  lemma ServeNext(digest: Approval.Digest, reqs: seq<Request>, r: R.Runner, steps: seq<R.Step>, step: R.Step)
    ensures Serve(digest, reqs, r, steps + [step]) == R.Do(digest, reqs, Serve(digest, reqs, r, steps), step)
  {
    assert (steps + [step])[..|steps|] == steps;
  }

  lemma {:induction false} ServeAppend(digest: Approval.Digest, reqs: seq<Request>, r: R.Runner,
                                       xs: seq<R.Step>, ys: seq<R.Step>)
    ensures Serve(digest, reqs, r, xs + ys) == Serve(digest, reqs, Serve(digest, reqs, r, xs), ys)
  {
    if ys == [] {
      assert xs + ys == xs;
    } else {
      var init, last := ys[..|ys| - 1], ys[|ys| - 1];
      assert xs + ys == xs + init + [last];
      ServeAppend(digest, reqs, r, xs, init);
      ServeNext(digest, reqs, r, xs + init, last);
    }
  }

  lemma ServeTwo(digest: Approval.Digest, reqs: seq<Request>, r: R.Runner, a: R.Step, b: R.Step)
    ensures Serve(digest, reqs, r, [a, b]) == R.Do(digest, reqs, R.Do(digest, reqs, r, a), b)
  {
    ServeNext(digest, reqs, r, [], a);
    ServeNext(digest, reqs, r, [a], b);
    assert [] + [a] == [a] && [a] + [b] == [a, b];
  }

  lemma ServeThree(digest: Approval.Digest, reqs: seq<Request>, r: R.Runner, a: R.Step, b: R.Step, c: R.Step)
    ensures Serve(digest, reqs, r, [a, b, c])
            == R.Do(digest, reqs, R.Do(digest, reqs, R.Do(digest, reqs, r, a), b), c)
  {
    ServeTwo(digest, reqs, r, a, b);
    ServeNext(digest, reqs, r, [a, b], c);
    assert [a, b] + [c] == [a, b, c];
  }

  lemma LooksAreServed(digest: Approval.Digest, reqs: seq<Request>, r: R.Runner, m: nat)
    ensures Serve(digest, reqs, r, [R.Arrive(0, m), R.Arrive(1, m), R.Look(0), R.Look(1)])
            == BothLooked(digest, reqs, r, m)
  {
    ServeThree(digest, reqs, r, R.Arrive(0, m), R.Arrive(1, m), R.Look(0));
    ServeNext(digest, reqs, r, [R.Arrive(0, m), R.Arrive(1, m), R.Look(0)], R.Look(1));
    assert [R.Arrive(0, m), R.Arrive(1, m), R.Look(0)] + [R.Look(1)]
        == [R.Arrive(0, m), R.Arrive(1, m), R.Look(0), R.Look(1)];
  }

  lemma OverlapIsServed(digest: Approval.Digest, reqs: seq<Request>, r: R.Runner, m: nat, answer: Response)
    ensures Serve(digest, reqs, r, Overlap(m, answer)) == SecondVerified(digest, reqs, r, m, answer)
  {
    var looks := [R.Arrive(0, m), R.Arrive(1, m), R.Look(0), R.Look(1)];
    LooksAreServed(digest, reqs, r, m);
    ServeAppend(digest, reqs, r, looks, [R.Begin(0), R.Verify(0)]);
    ServeTwo(digest, reqs, BothLooked(digest, reqs, r, m), R.Begin(0), R.Verify(0));
    ServeAppend(digest, reqs, r, looks + [R.Begin(0), R.Verify(0)], [R.Complete(0, answer), R.Begin(1), R.Verify(1)]);
    ServeThree(digest, reqs, FirstVerified(digest, reqs, r, m), R.Complete(0, answer), R.Begin(1), R.Verify(1));
  }

  lemma EntriesNext(log: seq<R.Event>, e: R.Event, task: nat)
    ensures TaskEntries(log + [e], task) == TaskEntries(log, task) + if Enters(e, task) then 1 else 0
  {
    assert (log + [e])[..|log|] == log;
  }

  lemma UnknownIdHasNoEntries(env: C.Env, s: System, m: nat)
    requires Inv(env, s) && m < |s.side.reqs| && s.side.reqs[m].requestId !in s.runner.table
    ensures |s.side.origins| == |s.side.reqs|
    ensures TaskEntries(s.runner.log, s.side.origins[m].what.id) == 0
    ensures Of(s.side.reqs[m].requestId, s.side.origins[m].what.id)
  {
    assert C.OriginOk(env, s.side, m);
    var task := s.side.origins[m].what.id;
    EntriesAreTheIds(env, s, task);
    RequestIdOf(task, s.side.origins[m].what.version, task);
    assert R.IdConsistent(s.runner, s.side.reqs[m].requestId);
  }

  /** From every reachable state in which a request the runner accepts has been sent and
      the runner is quiet: delivering it twice with the calls overlapping makes the task's
      plan enter the effect phase twice, the second time without a claim. */
  lemma OverlappingCallsEnterTwice(env: C.Env, steps: seq<Step>, m: nat, answer: Response)
    requires var s := Run(env, START, steps);
             Deliverable(env.digest, s.side.reqs, m) && Quiet(s.runner, s.side.reqs[m].requestId)
    ensures var s := Run(env, START, steps);
            && |s.side.origins| == |s.side.reqs|
            && var log := Run(env, START, steps + Runners(Overlap(m, answer))).runner.log;
               TaskEntries(log, s.side.origins[m].what.id) == 2 && Bypassed(log, s.side.origins[m].what.id)
  {
    var s := Run(env, START, steps);
    var id := s.side.reqs[m].requestId;
    Reachable(env, steps);
    RunAppend(env, START, steps, Runners(Overlap(m, answer)));
    RunnersRun(env, s, Overlap(m, answer));
    OverlapIsServed(env.digest, s.side.reqs, s.runner, m, answer);
    SecondVerifiedIs(env.digest, s.side.reqs, s.runner, m, answer);
    UnknownIdHasNoEntries(env, s, m);
    var task := s.side.origins[m].what.id;
    var log1 := s.runner.log + [R.Entered(id, true)];
    var log2 := log1 + [R.Finished(id, true, answer.(requestId := id))];
    EntriesNext(s.runner.log, R.Entered(id, true), task);
    EntriesNext(log1, R.Finished(id, true, answer.(requestId := id)), task);
    EntriesNext(log2, R.Entered(id, false), task);
    assert Enters(R.Entered(id, false), task) && R.Entered(id, false) in log2 + [R.Entered(id, false)];
  }

  // ------------------------------------------------- such a run from the start

  /** A workspace and a task in it. */
  function Created(env: C.Env, acceptance: seq<string>): C.Side {
    C.Do(env, map[], C.Do(env, map[], C.EMPTY, C.CreateWorkspace), C.Create(1, acceptance))
  }

  lemma CreatedIs(env: C.Env, acceptance: seq<string>)
    requires acceptance != []
    ensures var t := NewTask(1, acceptance);
            var c := Created(env, acceptance).council;
            c == Council(map[2 := t], {1}, 2, Tables(map[2 := t.(plan := NO_PLAN)], map[], {1}))
    ensures Created(env, acceptance) == C.EMPTY.(council := Created(env, acceptance).council)
  {
  }

  function Submit(env: C.Env, acceptance: seq<string>): C.Side {
    C.Do(env, map[], Created(env, acceptance), C.StartPlain(2))
  }

  lemma SubmitIs(env: C.Env, acceptance: seq<string>)
    requires acceptance != [] && !env.deliberates
    ensures var s := Submit(env, acceptance);
            && s.holder.Free? && s.reqs == [] && s.council.db.approvals == map[]
            && s.council.tasks == map[2 := C.Submitted(env, 2, NewTask(1, acceptance))]
  {
    CreatedIs(env, acceptance);
  }

  function HashOfFirst(env: C.Env, acceptance: seq<string>): string {
    HashOf(env.digest, 2, 1, NewTask(1, acceptance).plan)
  }

  function Councils(steps: seq<C.Step>): seq<Step> {
    if steps == [] then [] else Councils(steps[..|steps| - 1]) + [AtCouncil(steps[|steps| - 1])]
  }

  /** The council by itself, with no reply to take. */
  function Advance(env: C.Env, s: C.Side, steps: seq<C.Step>): C.Side {
    if steps == [] then s else C.Do(env, map[], Advance(env, s, steps[..|steps| - 1]), steps[|steps| - 1])
  }

  lemma {:induction false} CouncilsRun(env: C.Env, steps: seq<C.Step>)
    ensures Run(env, START, Councils(steps)) == System(Advance(env, C.EMPTY, steps), R.IDLE)
  {
    if steps != [] {
      var init, last := steps[..|steps| - 1], steps[|steps| - 1];
      CouncilsRun(env, init);
      assert (Councils(init) + [AtCouncil(last)])[..|Councils(init)|] == Councils(init);
    }
  }

  lemma AdvanceNext(env: C.Env, s: C.Side, steps: seq<C.Step>, step: C.Step)
    ensures Advance(env, s, steps + [step]) == C.Do(env, map[], Advance(env, s, steps), step)
  {
    assert (steps + [step])[..|steps|] == steps;
  }

  lemma {:induction false} AdvanceAppend(env: C.Env, s: C.Side, xs: seq<C.Step>, ys: seq<C.Step>)
    ensures Advance(env, s, xs + ys) == Advance(env, Advance(env, s, xs), ys)
  {
    if ys == [] {
      assert xs + ys == xs;
    } else {
      var init, last := ys[..|ys| - 1], ys[|ys| - 1];
      assert xs + ys == xs + init + [last];
      AdvanceAppend(env, s, xs, init);
      AdvanceNext(env, s, xs + init, last);
    }
  }

  lemma AdvanceTwo(env: C.Env, s: C.Side, a: C.Step, b: C.Step)
    ensures Advance(env, s, [a, b]) == C.Do(env, map[], C.Do(env, map[], s, a), b)
  {
    AdvanceNext(env, s, [], a);
    AdvanceNext(env, s, [a], b);
    assert [] + [a] == [a] && [a] + [b] == [a, b];
  }

  lemma AdvanceThree(env: C.Env, s: C.Side, a: C.Step, b: C.Step, c: C.Step)
    ensures Advance(env, s, [a, b, c]) == C.Do(env, map[], C.Do(env, map[], C.Do(env, map[], s, a), b), c)
  {
    AdvanceTwo(env, s, a, b);
    AdvanceNext(env, s, [a, b], c);
    assert [a, b] + [c] == [a, b, c];
  }

  /** Create a workspace and a task, and start it without a council. */
  function SubmitSteps(acceptance: seq<string>): seq<C.Step> {
    [C.CreateWorkspace, C.Create(1, acceptance), C.StartPlain(2)]
  }

  /** Then approve it. */
  function ApproveSteps(env: C.Env, acceptance: seq<string>): seq<C.Step> {
    [C.ApproveFirst(2, 1, HashOfFirst(env, acceptance)), C.ApproveSecond(0), C.ApproveThird]
  }

  /** And send its request. */
  function SendSteps(env: C.Env, acceptance: seq<string>): seq<C.Step> {
    SubmitSteps(acceptance) + ApproveSteps(env, acceptance) + [C.ExecuteFirst(2), C.Send]
  }

  function Approved(env: C.Env, acceptance: seq<string>): C.Side {
    Refinement.ApproveSteps(env, Submit(env, acceptance), 2, 1, HashOfFirst(env, acceptance), 0)
  }

  lemma SendStepsAre(env: C.Env, acceptance: seq<string>)
    ensures Advance(env, C.EMPTY, SubmitSteps(acceptance)) == Submit(env, acceptance)
    ensures Advance(env, C.EMPTY, SendSteps(env, acceptance))
            == C.Do(env, map[], C.Do(env, map[], Approved(env, acceptance), C.ExecuteFirst(2)), C.Send)
  {
    AdvanceThree(env, C.EMPTY, C.CreateWorkspace, C.Create(1, acceptance), C.StartPlain(2));
    AdvanceAppend(env, C.EMPTY, SubmitSteps(acceptance), ApproveSteps(env, acceptance));
    AdvanceThree(env, Submit(env, acceptance),
                 C.ApproveFirst(2, 1, HashOfFirst(env, acceptance)), C.ApproveSecond(0), C.ApproveThird);
    AdvanceAppend(env, C.EMPTY, SubmitSteps(acceptance) + ApproveSteps(env, acceptance), [C.ExecuteFirst(2), C.Send]);
    AdvanceTwo(env, Approved(env, acceptance), C.ExecuteFirst(2), C.Send);
  }

  /** The digest is never empty: its text is 64 hexadecimal digits. */
  ghost predicate NeverEmpty(digest: Approval.Digest) { forall p :: digest(p) != "" }

  lemma SubmitIsReachable(env: C.Env, acceptance: seq<string>)
    ensures C.Inv(env, Submit(env, acceptance))
  {
    SendStepsAre(env, acceptance);
    CouncilsRun(env, SubmitSteps(acceptance));
    Reachable(env, Councils(SubmitSteps(acceptance)));
  }

  /** Approving can be followed by executing, and keeps what will be sent. */
  lemma ApprovedIs(env: C.Env, acceptance: seq<string>)
    requires NeverEmpty(env.digest) && !env.deliberates && acceptance != []
    ensures var s := Approved(env, acceptance);
            && s.holder.Free? && s.reqs == [] && ExecuteBegin(s.council, 2).1 == 200
            && 2 in s.council.tasks && 2 in Submit(env, acceptance).council.tasks
            && RequestFor(s.council, 2) == RequestFor(Submit(env, acceptance).council, 2)
  {
    var s1 := Submit(env, acceptance);
    SubmitIs(env, acceptance);
    SubmitIsReachable(env, acceptance);
    Refinement.ApproveIsItsSteps(env, s1, 2, 1, HashOfFirst(env, acceptance), 0);
    ApprovedCanStart(env, s1, 2, 0);
  }

  lemma FirstRequestIsSent(env: C.Env, acceptance: seq<string>)
    requires Approval.Injective(env.digest) && NeverEmpty(env.digest) && !env.deliberates && acceptance != []
    ensures var s := Advance(env, C.EMPTY, SendSteps(env, acceptance));
            Deliverable(env.digest, s.reqs, 0) && s.reqs[0].requestId == RequestId(2, 1)
  {
    var s1 := Submit(env, acceptance);
    SendStepsAre(env, acceptance);
    SubmitIs(env, acceptance);
    ApprovedIs(env, acceptance);
    Refinement.SentIsIts(env, Approved(env, acceptance), 2);
    DraftRestart.SubmittedIsAccepted(env, s1.council, 2, NewTask(1, acceptance));
  }

  lemma OriginIsTask(env: C.Env, s: System, m: nat, task: nat, version: int)
    requires Inv(env, s) && m < |s.side.reqs| && s.side.reqs[m].requestId == RequestId(task, version)
    ensures |s.side.origins| == |s.side.reqs| && s.side.origins[m].what.id == task
  {
    assert C.OriginOk(env, s.side, m);
    RequestIdOf(task, version, task);
    RequestIdOf(s.side.origins[m].what.id, s.side.origins[m].what.version, task);
  }

  /** From the very start there is a run in which the plan of one task enters the effect
      phase twice. */
  lemma TwiceFromTheStart(env: C.Env, acceptance: seq<string>, answer: Response)
    requires Approval.Injective(env.digest) && NeverEmpty(env.digest) && !env.deliberates && acceptance != []
    ensures var steps := Councils(SendSteps(env, acceptance)) + Runners(Overlap(0, answer));
            TaskEntries(Run(env, START, steps).runner.log, 2) == 2
  {
    var steps := Councils(SendSteps(env, acceptance));
    CouncilsRun(env, SendSteps(env, acceptance));
    Reachable(env, steps);
    FirstRequestIsSent(env, acceptance);
    OriginIsTask(env, Run(env, START, steps), 0, 2, 1);
    OverlappingCallsEnterTwice(env, steps, 0, answer);
  }

  // ------------------------------------------------- approve, then execute

  lemma InvalidatedIsInactive(rows: Rows, id: nat, version: int, hash: string)
    ensures ActiveIds(Invalidate(rows, id), id, version, hash) == {}
  {
    var ids := ActiveIds(Invalidate(rows, id), id, version, hash);
    forall a ensures a !in ids {
      assert a in ids ==> a in rows && Active(Invalidate(rows, id)[a], id, version, hash);
    }
  }

  /** Approving leaves exactly one active row, whatever rows there were. */
  lemma ApprovingActivatesOneRow(rows: Rows, id: nat, version: int, hash: string, row: int)
    ensures ActiveIds(Invalidate(rows, id)[row := ApprovedRow(id, version, hash)], id, version, hash) == {row}
  {
    var before, after := Invalidate(rows, id), Invalidate(rows, id)[row := ApprovedRow(id, version, hash)];
    InvalidatedIsInactive(rows, id, version, hash);
    forall a ensures a in ActiveIds(after, id, version, hash) <==> a == row {
      assert a != row && a in ActiveIds(after, id, version, hash) ==> a in ActiveIds(before, id, version, hash);
    }
  }

  /** After an approval was saved the execution can begin, with what was approved. */
  lemma ApprovedCanStart(env: C.Env, s: C.Side, id: nat, row: int)
    requires C.Inv(env, s) && s.holder.Free? && row !in s.council.db.approvals
    requires id in s.council.tasks && s.council.tasks[id].state.AwaitingApproval?
    requires s.council.tasks[id].approvalHash != ""
    ensures var t := s.council.tasks[id];
            var (c1, approved) := Approve(s.council, id, t.planVersion, t.approvalHash, row);
            && approved == 200 && ExecuteBegin(c1, id).1 == 200
            && id in c1.tasks && RequestFor(c1, id) == RequestFor(s.council, id)
  {
    var t := s.council.tasks[id];
    assert C.TaskOk(env, s, id);
    ApprovingActivatesOneRow(s.council.db.approvals, id, t.planVersion, t.approvalHash, row);
  }

  /** From any reachable state: approving a task that awaits approval, with its version
      and hash and a row id that is free, and then executing it with a SUCCEEDED answer
      from the runner, ends in SUCCEEDED with that answer. */
  lemma ApprovedTaskSucceeds(env: C.Env, s: C.Side, id: nat, row: int, r: Response)
    requires C.Inv(env, s) && s.holder.Free?
    requires id in s.council.tasks && s.council.tasks[id].state.AwaitingApproval?
    requires s.council.tasks[id].approvalHash != ""
    requires row !in s.council.db.approvals && r.status == "SUCCEEDED"
    ensures var t := s.council.tasks[id];
            var (c1, approved) := Approve(s.council, id, t.planVersion, t.approvalHash, row);
            var (c2, executed) := Execute(c1, id, Answer(r));
            && approved == 200 && executed == 200
            && c2.tasks[id] == t.(approved := true, verification := Some(r), state := Succeeded)
            && c2.db.tasks[id] == c2.tasks[id] && c2.db.approvals[row].consumed
  {
    var t := s.council.tasks[id];
    assert C.TaskOk(env, s, id);
    ApprovingActivatesOneRow(s.council.db.approvals, id, t.planVersion, t.approvalHash, row);
  }

  /** A second approval whose row cannot be saved leaves the task without an active row:
      executing it is refused, though it still counts as approved. */
  lemma LostApprovalBlocksExecution(env: C.Env, s: C.Side, id: nat, row: int, rpc: RpcResult)
    requires C.Inv(env, s) && s.holder.Free?
    requires id in s.council.tasks && s.council.tasks[id].state.AwaitingApproval?
    requires s.council.tasks[id].approvalHash != ""
    requires row in s.council.db.approvals
    ensures var t := s.council.tasks[id];
            var (c1, approved) := Approve(s.council, id, t.planVersion, t.approvalHash, row);
            approved == 500 && Execute(c1, id, rpc) == (c1, if t.approved then 409 else 403)
  {
    var t := s.council.tasks[id];
    assert C.TaskOk(env, s, id);
    InvalidatedIsInactive(s.council.db.approvals, id, t.planVersion, t.approvalHash);
  }

  /** In every reachable state: an approval is accepted exactly when it names the plan the
      task waits with and its row can be saved, and then executing is possible; when the row
      cannot be saved, executing is not; any other answer changes nothing. */
  lemma ApproveDecides(env: C.Env, s: C.Side, id: nat, version: int, hash: string, row: int)
    requires C.Inv(env, s)
    ensures var c := s.council;
            var (c', code) := Approve(c, id, version, hash, row);
            var named := && hash != "" && id in c.tasks && c.tasks[id].state.AwaitingApproval?
                         && c.tasks[id].planVersion == version && c.tasks[id].approvalHash == hash;
            && (code == 200 <==> named && row !in c.db.approvals)
            && (code == 500 <==> named && row in c.db.approvals)
            && (code == 200 ==> ExecuteBegin(c', id).1 == 200)
            && (code == 500 ==> ExecuteBegin(c', id).1 != 200)
            && (code != 200 && code != 500 ==> c' == c)
  {
    if id in s.council.tasks {
      assert C.TaskOk(env, s, id);
      if row in s.council.db.approvals {
        InvalidatedIsInactive(s.council.db.approvals, id, version, hash);
      } else {
        ApprovingActivatesOneRow(s.council.db.approvals, id, version, hash, row);
      }
    }
  }
}
