/** What the council's handlers answer, and what a caller may conclude from it. */
module HandlerAnswers {
  import opened Results
  import opened Wire
  import opened Approvals
  import opened CouncilSteps
  import C = CouncilProtocol

  /** Executing needs an approval that is still active, or an execution that was begun. */
  predicate Executable(c: Council, id: nat) {
    id in c.tasks &&
    var t := c.tasks[id];
    || t.state.Executing?
    || (t.state.AwaitingApproval? && t.approved && |ActiveIds(c.db.approvals, id, t.planVersion, t.approvalHash)| == 1)
  }

  /** In every reachable state: the runner is called exactly for an executable task, an
      approval that is missing is told apart from one that is gone, and a refusal
      changes nothing. */
  lemma ExecuteAnswers(env: C.Env, s: C.Side, id: nat)
    requires C.Inv(env, s)
    ensures var c := s.council;
            var (c', code) := ExecuteBegin(c, id);
            && (code == 200 <==> Executable(c, id))
            && (code == 404 <==> id !in c.tasks)
            && (code == 403 <==> id in c.tasks && !c.tasks[id].state.Executing? && !c.tasks[id].approved)
            && (code != 200 ==> c' == c)
            && (code == 200 ==> c'.tasks == c.tasks[id := c.tasks[id].(state := Executing)])
  {
    if id in s.council.tasks {
      assert C.TaskOk(env, s, id);
    }
  }

  /** A reply that got lost leaves the task EXECUTING: executing it again needs no
      approval, changes nothing, and sends the same request. */
  lemma LostReplyIsResumable(env: C.Env, s: C.Side, id: nat)
    requires C.Inv(env, s) && Executable(s.council, id)
    ensures var (c', code) := Execute(s.council, id, Lost);
            && code == 502 && id in c'.tasks && c'.tasks[id].state.Executing?
            && ExecuteBegin(c', id) == (c', 200) && RequestFor(c', id) == RequestFor(s.council, id)
  {
    ExecuteAnswers(env, s, id);
  }

  /** What is left of the task and its row for every outcome of the call. */
  lemma ExecuteOutcomes(env: C.Env, s: C.Side, id: nat, rpc: RpcResult)
    requires C.Inv(env, s) && Executable(s.council, id)
    ensures var (c', code) := Execute(s.council, id, rpc);
            && id in c'.tasks && c'.db.tasks == s.council.db.tasks[id := c'.tasks[id]]
            && (code == 200 <==> rpc.Answer? && rpc.response.status == "SUCCEEDED")
            && (code == 502 <==> rpc.Lost?)
            && c'.tasks[id].state == (if code == 200 then Succeeded else if code == 502 then Executing else Failed)
            && c'.tasks[id].verification
               == (if code == 200 then Some(rpc.response) else s.council.tasks[id].verification)
  {
    ExecuteAnswers(env, s, id);
    assert C.TaskOk(env, s, id);
  }
}
