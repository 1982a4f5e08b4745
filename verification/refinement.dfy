/** The protocol's steps are the handlers cut in pieces: run in a row they do what the
    whole handler does. */
module Refinement {
  import opened Results
  import opened Wire
  import opened CouncilSteps
  import Approval
  import Idempotency
  import FileTransaction
  import C = CouncilProtocol
  import R = RunnerProtocol
  import S = RunnerService

  // ---------------------------------------------------------------- approve

  function ApproveSteps(env: C.Env, s: C.Side, id: nat, version: int, hash: string, row: int): C.Side {
    var s1 := C.Do(env, map[], s, C.ApproveFirst(id, version, hash));
    var s2 := C.Do(env, map[], s1, C.ApproveSecond(row));
    C.Do(env, map[], s2, C.ApproveThird)
  }

  /** The three steps change what the handler changes, and record, exactly when it answers
      200, that the plan the task has was accepted under the version and hash named. */
  lemma ApproveIsItsSteps(env: C.Env, s: C.Side, id: nat, version: int, hash: string, row: int)
    requires s.holder.Free?
    ensures var (c', code) := Approve(s.council, id, version, hash, row);
            && (code == 200 ==> id in s.council.tasks)
            && ApproveSteps(env, s, id, version, hash, row)
               == s.(council := c',
                     accepted := if code != 200 then s.accepted
                                 else s.accepted + [C.Acceptance(id, s.council.tasks[id].workspace, version, hash,
                                                                 s.council.tasks[id].plan)])
  {
  }

  // ---------------------------------------------------------------- execute

  function ExecuteSteps(env: C.Env, s: C.Side, id: nat, rpc: RpcResult): C.Side {
    AfterSend(env, C.Do(env, map[], C.Do(env, map[], s, C.ExecuteFirst(id)), C.Send), |s.reqs|, rpc)
  }

  lemma SentIsIts(env: C.Env, s: C.Side, id: nat)
    requires s.holder.Free? && ExecuteBegin(s.council, id).1 == 200
    ensures var s2 := C.Do(env, map[], C.Do(env, map[], s, C.ExecuteFirst(id)), C.Send);
            && s2.council == ExecuteBegin(s.council, id).0 && s2.holder == C.Waiting(id, |s.reqs|)
            && id in s.council.tasks && id in s2.council.tasks && s2.reqs == s.reqs + [RequestFor(s.council, id)]
  {
  }

  lemma ReplyIsIts(env: C.Env, s: C.Side, id: nat, r: Response)
    requires s.holder.Waiting? && s.holder.id == id && id in s.council.tasks
    ensures var s3 := C.Do(env, map[], C.Do(env, map[s.holder.msg := r], s, C.TakeReply), C.RecordSuccess);
            s3.council == ExecuteEnd(s.council, id, Answer(r)).0 && s3.holder.Free? && s3.reqs == s.reqs
  {
  }

  lemma NoReplyIsIts(env: C.Env, s: C.Side, id: nat)
    requires s.holder.Waiting? && s.holder.id == id && id in s.council.tasks
    ensures var lost, empty := C.Do(env, map[], s, C.LoseReply), C.Do(env, map[], s, C.EmptyReply);
            && lost.council == ExecuteEnd(s.council, id, Lost).0 && lost.holder.Free? && lost.reqs == s.reqs
            && empty.council == ExecuteEnd(s.council, id, NoResponse).0 && empty.holder.Free? && empty.reqs == s.reqs
  {
  }

  lemma RefusedIsIts(env: C.Env, s: C.Side, id: nat, rpc: RpcResult)
    requires s.holder.Free? && ExecuteBegin(s.council, id).1 != 200
    ensures ExecuteSteps(env, s, id, rpc) == s && Execute(s.council, id, rpc).0 == s.council
  {
  }

  /** Every outcome of executeTask, with the runner's answer arriving at once. */
  lemma ExecuteIsItsSteps(env: C.Env, s: C.Side, id: nat, rpc: RpcResult)
    requires s.holder.Free?
    ensures var s' := ExecuteSteps(env, s, id, rpc);
            && s'.council == Execute(s.council, id, rpc).0 && s'.holder.Free?
            && s'.reqs == if ExecuteBegin(s.council, id).1 == 200 && id in s.council.tasks
                          then s.reqs + [RequestFor(s.council, id)] else s.reqs
  {
    if ExecuteBegin(s.council, id).1 == 200 {
      SentIsIts(env, s, id);
      FromSentIsIts(env, s, C.Do(env, map[], C.Do(env, map[], s, C.ExecuteFirst(id)), C.Send), id, rpc);
    } else {
      RefusedIsIts(env, s, id, rpc);
    }
  }

  function AfterSend(env: C.Env, s2: C.Side, msg: nat, rpc: RpcResult): C.Side {
    match rpc
    case Lost => C.Do(env, map[], s2, C.LoseReply)
    case NoResponse => C.Do(env, map[], s2, C.EmptyReply)
    case Answer(r) => C.Do(env, map[], C.Do(env, map[msg := r], s2, C.TakeReply), C.RecordSuccess)
  }

  lemma FromSentIsIts(env: C.Env, s: C.Side, s2: C.Side, id: nat, rpc: RpcResult)
    requires s2.holder == C.Waiting(id, |s.reqs|) && id in s2.council.tasks
    ensures var s' := AfterSend(env, s2, |s.reqs|, rpc);
            s'.council == ExecuteEnd(s2.council, id, rpc).0 && s'.holder.Free? && s'.reqs == s2.reqs
  {
    match rpc
    case Answer(r) => ReplyIsIts(env, s2, id, r);
    case _ => NoReplyIsIts(env, s2, id);
  }

  // ----------------------------------------------------------- a runner call

  /** One call from its arrival on, with nothing in between. */
  function ServeAlone(digest: Approval.Digest, reqs: seq<Request>, r: R.Runner, c: nat, m: nat, response: Response)
    : R.Runner
  {
    var r1 := R.Do(digest, reqs, r, R.Arrive(c, m));
    var r2 := R.Do(digest, reqs, r1, R.Look(c));
    var r3 := R.Do(digest, reqs, r2, R.Begin(c));
    var r4 := R.Do(digest, reqs, r3, R.Verify(c));
    R.Do(digest, reqs, r4, R.Complete(c, response))
  }

  /** The call, somewhere on its way. */
  function With(r: R.Runner, c: nat, m: nat, id: string, phase: R.Phase): R.Runner {
    r.(calls := r.calls[c := R.Call(m, id, phase)])
  }

  lemma WithDropped(r: R.Runner, c: nat, m: nat, id: string, phase: R.Phase)
    requires c !in r.calls
    ensures R.Drop(With(r, c, m, id, phase), c) == r
  {
    assert r.calls[c := R.Call(m, id, phase)] - {c} == r.calls;
  }

  lemma LookIsIts(digest: Approval.Digest, reqs: seq<Request>, r: R.Runner, c: nat, m: nat)
    requires c !in r.calls && m < |reqs| && reqs[m].requestId != ""
    ensures var id := reqs[m].requestId;
            var (memory, got) := Idempotency.Get(r.memory, Some(r.table), id);
            R.Do(digest, reqs, R.Do(digest, reqs, r, R.Arrive(c, m)), R.Look(c))
            == if got.Some? then r.(memory := memory, replies := r.replies[m := got.value])
               else With(r, c, m, id, R.Missed)
  {
    WithDropped(r, c, m, reqs[m].requestId, R.Arrived);
  }

  lemma BeginIsIts(digest: Approval.Digest, reqs: seq<Request>, r: R.Runner, c: nat, m: nat, id: string)
    requires c !in r.calls
    ensures var (memory, table, begun) := Idempotency.Begin(r.memory, Some(r.table), id);
            && table.Some? && (begun.InProgress? ==> table.value == r.table)
            && R.Do(digest, reqs, With(r, c, m, id, R.Missed), R.Begin(c))
               == if begun.InProgress? then r.(memory := memory)
                  else With(r.(memory := memory, table := table.value), c, m, id, R.Begun(begun.Claimed?))
  {
    WithDropped(r, c, m, id, R.Missed);
  }

  lemma VerifyIsIts(digest: Approval.Digest, reqs: seq<Request>, r: R.Runner, c: nat, m: nat, claimed: bool)
    requires c !in r.calls && m < |reqs|
    ensures var id := reqs[m].requestId;
            var r' := R.Do(digest, reqs, With(r, c, m, id, R.Begun(claimed)), R.Verify(c));
            if Approval.Verify(digest, reqs[m].approvalHash, reqs[m].runId, reqs[m].workspaceId, Rebuild(reqs[m])) then
              r' == With(r.(log := r.log + [R.Entered(id, claimed)]), c, m, id, R.Performing(claimed))
            else r' == r.(memory := if claimed then Idempotency.Release(r.memory, id) else r.memory)
  {
    WithDropped(r, c, m, reqs[m].requestId, R.Begun(claimed));
  }

  lemma CompleteIsIts(digest: Approval.Digest, reqs: seq<Request>, r: R.Runner, c: nat, m: nat, id: string,
                      claimed: bool, response: Response)
    requires c !in r.calls && response.requestId == id
    ensures var (memory, table) := Idempotency.Finish(r.memory, Some(r.table), id, response);
            var r' := R.Do(digest, reqs, With(r, c, m, id, R.Performing(claimed)), R.Complete(c, response));
            && r'.memory == memory && Some(r'.table) == table && r'.calls == r.calls
            && r'.replies == r.replies[m := response]
  {
    WithDropped(r, c, m, id, R.Performing(claimed));
  }

  predicate Agrees(r: R.Runner, r': R.Runner, m: nat, o: S.CallOutcome) {
    && r'.memory == o.memory && Some(r'.table) == o.table && r'.calls == r.calls
    && r'.replies == if o.reply.Answer? then r.replies[m := o.reply.response] else r.replies
  }

  /** From Begin's outcome on, the service and the protocol agree. */
  lemma ServedIsItsSteps(ws: FileTransaction.Workspace, run: S.Commands, d: FileTransaction.DiskState,
                         digest: Approval.Digest, reqs: seq<Request>, r: R.Runner, c: nat, m: nat,
                         begun: Idempotency.Begun, response: Response)
    requires c !in r.calls && m < |reqs| && !begun.InProgress? && response.requestId == reqs[m].requestId
    ensures var id := reqs[m].requestId;
            var r1 := R.Do(digest, reqs, With(r, c, m, id, R.Begun(begun.Claimed?)), R.Verify(c));
            S.Effects(ws, run, d, id, Rebuild(reqs[m])).response == Some(response) ==>
              Agrees(r, R.Do(digest, reqs, r1, R.Complete(c, response)), m,
                     S.Served(ws, digest, run, r.memory, Some(r.table), begun, d, reqs[m]))
  {
    var id := reqs[m].requestId;
    VerifyIsIts(digest, reqs, r, c, m, begun.Claimed?);
    CompleteIsIts(digest, reqs, r.(log := r.log + [R.Entered(id, begun.Claimed?)]), c, m, id, begun.Claimed?, response);
    assert r.memory.running - {id} - {id} == r.memory.running - {id};
  }

  /** A call that has ended takes no further step. */
  lemma GoneIsDone(digest: Approval.Digest, reqs: seq<Request>, r: R.Runner, c: nat, response: Response)
    requires c !in r.calls
    ensures R.Do(digest, reqs, r, R.Begin(c)) == r
    ensures R.Do(digest, reqs, R.Do(digest, reqs, r, R.Verify(c)), R.Complete(c, response)) == r
  {
  }

  lemma BusyIsItsSteps(ws: FileTransaction.Workspace, run: S.Commands, d: FileTransaction.DiskState,
                       digest: Approval.Digest, req: Request, r: R.Runner, m: nat)
    requires req.requestId != "" && Idempotency.Get(r.memory, Some(r.table), req.requestId).1.None?
    requires Idempotency.Begin(r.memory, Some(r.table), req.requestId).2.InProgress?
    ensures var memory := Idempotency.Begin(r.memory, Some(r.table), req.requestId).0;
            Agrees(r, r.(memory := memory), m, S.Call(ws, digest, run, r.memory, Some(r.table), map[], d, req))
  {
    CallIsServed(ws, run, d, digest, req, r.memory, r.table);
  }

  /** From Look's outcome on. */
  lemma MissedIsItsSteps(ws: FileTransaction.Workspace, run: S.Commands, d: FileTransaction.DiskState,
                         digest: Approval.Digest, reqs: seq<Request>, r: R.Runner, c: nat, m: nat, response: Response)
    requires c !in r.calls && m < |reqs| && reqs[m].requestId != "" && response.requestId == reqs[m].requestId
    requires Idempotency.Get(r.memory, Some(r.table), reqs[m].requestId).1.None?
    ensures var o := S.Call(ws, digest, run, r.memory, Some(r.table), map[], d, reqs[m]);
            var r3 := R.Do(digest, reqs, With(r, c, m, reqs[m].requestId, R.Missed), R.Begin(c));
            var r4 := R.Do(digest, reqs, r3, R.Verify(c));
            S.Effects(ws, run, d, reqs[m].requestId, Rebuild(reqs[m])).response == Some(response) ==>
              Agrees(r, R.Do(digest, reqs, r4, R.Complete(c, response)), m, o)
  {
    var id := reqs[m].requestId;
    var (memory, table, begun) := Idempotency.Begin(r.memory, Some(r.table), id);
    BeginIsIts(digest, reqs, r, c, m, id);
    if begun.InProgress? {
      BusyIsItsSteps(ws, run, d, digest, reqs[m], r, m);
      GoneIsDone(digest, reqs, r.(memory := memory), c, response);
    } else if S.Effects(ws, run, d, id, Rebuild(reqs[m])).response == Some(response) {
      CallIsServed(ws, run, d, digest, reqs[m], r.memory, r.table);
      ServedIsItsSteps(ws, run, d, digest, reqs, r.(memory := memory, table := table.value), c, m, begun, response);
    }
  }

  lemma CallIsServed(ws: FileTransaction.Workspace, run: S.Commands, d: FileTransaction.DiskState,
                     digest: Approval.Digest, req: Request, memory: Idempotency.Memory, table: Idempotency.Table)
    requires req.requestId != "" && Idempotency.Get(memory, Some(table), req.requestId).1.None?
    ensures var (m', t', begun) := Idempotency.Begin(memory, Some(table), req.requestId);
            S.Call(ws, digest, run, memory, Some(table), map[], d, req)
            == S.Served(ws, digest, run, m', t', begun, d, req)
  {
    assert table + map[] == table;
  }

  lemma AnsweredIsItsSteps(ws: FileTransaction.Workspace, run: S.Commands, d: FileTransaction.DiskState,
                           digest: Approval.Digest, reqs: seq<Request>, r: R.Runner, c: nat, m: nat, response: Response)
    requires c !in r.calls && m < |reqs|
    requires reqs[m].requestId != "" ==> Idempotency.Get(r.memory, Some(r.table), reqs[m].requestId).1.Some?
    ensures Agrees(r, ServeAlone(digest, reqs, r, c, m, response), m,
                   S.Call(ws, digest, run, r.memory, Some(r.table), map[], d, reqs[m]))
  {
    var r2 := R.Do(digest, reqs, R.Do(digest, reqs, r, R.Arrive(c, m)), R.Look(c));
    if reqs[m].requestId != "" {
      LookIsIts(digest, reqs, r, c, m);
    }
    GoneIsDone(digest, reqs, r2, c, response);
  }

  /** A call nothing interferes with does in steps what ExecuteApprovedPlan does, whether
      it is refused, answered from memory, or performed; only a crash has no such steps. */
  lemma CallIsItsSteps(ws: FileTransaction.Workspace, run: S.Commands, d: FileTransaction.DiskState,
                       digest: Approval.Digest, reqs: seq<Request>, r: R.Runner, c: nat, m: nat)
    requires c !in r.calls && m < |reqs|
    ensures var response := S.Effects(ws, run, d, reqs[m].requestId, Rebuild(reqs[m])).response;
            response.Some? ==>
              Agrees(r, ServeAlone(digest, reqs, r, c, m, response.value), m,
                     S.Call(ws, digest, run, r.memory, Some(r.table), map[], d, reqs[m]))
  {
    var id := reqs[m].requestId;
    var response := S.Effects(ws, run, d, id, Rebuild(reqs[m])).response;
    if response.Some? {
      if id == "" || Idempotency.Get(r.memory, Some(r.table), id).1.Some? {
        AnsweredIsItsSteps(ws, run, d, digest, reqs, r, c, m, response.value);
      } else {
        LookIsIts(digest, reqs, r, c, m);
        S.SucceededRanEverything(ws, run, d, id, Rebuild(reqs[m]));
        MissedIsItsSteps(ws, run, d, digest, reqs, r, c, m, response.value);
      }
    }
  }
}
