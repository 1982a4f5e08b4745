/** The council API object: the handlers as they run, one lock section each. */
module CouncilApi {
  import opened Results
  import opened Plans
  import opened Wire
  import opened Approvals
  import opened CouncilSteps
  import Hashing = Approval

  lemma SaveOver(c: Council, id: nat, t: Task, t': Task)
    ensures Save(SetTask(c, id, t), id, t') == Save(c, id, t')
  {
    assert c.tasks[id := t][id := t'] == c.tasks[id := t'];
  }

  class Api {
    var tasks: map<nat, Task>
    var workspaces: set<nat>
    var nextId: nat
    const db: Database
    const approvalRepo: ApprovalRepository
    const digest: Hashing.Digest

    predicate Wired()
      reads this
    {
      approvalRepo.db == db
    }

    function State(): Council
      reads this, db
    {
      Council(tasks, workspaces, nextId, db.State())
    }

    /** NewPersistentAPI: rebuild memory from the rows, and the id counter from the ids. */
    constructor (db: Database, digest: Hashing.Digest)
      ensures this.db == db && this.digest == digest && Wired()
      ensures IsLastId(db.State(), nextId) && State() == Restarted(old(db.State()), nextId)
    {
      this.db, this.digest := db, digest;
      approvalRepo := new ApprovalRepository(db);
      tasks, workspaces, nextId := map id | id in db.tasks :: Rehydrated(db.tasks[id]), db.workspaces, 0;
      new;
      nextId := LargestOf(db.tasks.Keys, nextId);
      nextId := LargestOf(db.workspaces, nextId);
    }

    static method LargestOf(ids: set<nat>, start: nat) returns (n: nat)
      ensures n >= start && forall id :: id in ids ==> id <= n
      ensures n == start || n in ids
    {
      n := start;
      var todo := ids;
      while todo != {}
        invariant todo <= ids && n >= start && (n == start || n in ids)
        invariant forall id :: id in ids && id !in todo ==> id <= n
        decreases todo
      {
        var id :| id in todo;
        if id > n {
          n := id;
        }
        todo := todo - {id};
      }
    }

    method PersistTask(id: nat)
      requires id in tasks
      modifies db
      ensures State() == Persist(old(State()), id)
    {
      if id in db.tasks {
        db.tasks := db.tasks[id := tasks[id].(workspace := db.tasks[id].workspace)];
      }
    }

    method CreateTask(ws: nat, acceptance: seq<string>) returns (code: int)
      modifies this, db
      ensures (State(), code) == CouncilSteps.CreateTask(old(State()), ws, acceptance)
    {
      if acceptance == [] || ws !in workspaces {
        return 400;
      }
      nextId := nextId + 1;
      var t := Task(Draft, ws, acceptance, 1, "", false, NO_PLAN, None);
      t := t.(plan := t.plan.(version := t.planVersion));
      tasks := tasks[nextId := t];
      db.tasks := db.tasks[nextId := Task(t.state, ws, acceptance, t.planVersion, "", false, NO_PLAN, None)];
      return 201;
    }

    method BeginStart(id: nat) returns (code: int)
      modifies this, db
      ensures (State(), code) == CouncilSteps.BeginStart(old(State()), id)
    {
      if id !in tasks {
        return 404;
      }
      if !tasks[id].state.Draft? {
        return 409;
      }
      Transition(id, Analyzing);
      return 200;
    }

    method Transition(id: nat, state: State)
      requires id in tasks
      modifies this, db
      ensures State() == Save(old(State()), id, old(tasks)[id].(state := state))
    {
      tasks := tasks[id := tasks[id].(state := state)];
      PersistTask(id);
    }

    method FailStart(id: nat)
      modifies this, db
      ensures State() == CouncilSteps.FailStart(old(State()), id)
    {
      if id in tasks && !tasks[id].state.Failed? {
        Transition(id, Failed);
      }
    }

    method FinishStart(id: nat, plan: Option<Plan>) returns (code: int)
      modifies this, db
      ensures (State(), code) == CouncilSteps.FinishStart(old(State()), digest, id, plan)
    {
      if id !in tasks {
        return 404;
      }
      var t := tasks[id];
      if !t.state.Draft? && !t.state.Analyzing? {
        return 409;
      }
      if plan.Some? {
        t := t.(plan := plan.value);
        if t.plan.version == 0 {
          t := t.(plan := t.plan.(version := t.planVersion));
        } else {
          t := t.(planVersion := t.plan.version);
        }
        if Elems(t.plan.acceptance) == [] {
          t := t.(plan := t.plan.(acceptance := if t.acceptance == [] then Nil else Items(t.acceptance)));
        }
      }
      t := t.(approvalHash := HashOf(digest, id, t.workspace, t.plan));
      tasks := tasks[id := t];
      Transition(id, AwaitingApproval);
      SaveOver(old(State()), id, t, t.(state := AwaitingApproval));
      return 200;
    }

    method ApproveTask(id: nat, version: int, hash: string, row: int) returns (code: int)
      requires Wired()
      modifies this, db
      ensures Wired() && (State(), code) == Approve(old(State()), id, version, hash, row)
    {
      if hash == "" {
        return 400;
      }
      if id !in tasks {
        return 404;
      }
      var t := tasks[id];
      if !t.state.AwaitingApproval? || version != t.planVersion || hash != t.approvalHash {
        return 409;
      }
      approvalRepo.InvalidateRun(id);
      var ok := approvalRepo.Save(row, ApprovalRow(id, version, hash, "approved", false, false));
      if !ok {
        return 500;
      }
      tasks := tasks[id := t.(approved := true)];
      PersistTask(id);
      return 200;
    }

    /** rejectTask and cancelTask. */
    method StopTask(id: nat) returns (code: int)
      modifies this, db
      ensures (State(), code) == Stop(old(State()), id)
    {
      if id !in tasks {
        return 404;
      }
      tasks := tasks[id := tasks[id].(state := Cancelled, approved := false)];
      PersistTask(id);
      return 200;
    }

    /** `rpc` is what the runner's reply turns out to be; `sent` the request it answers. */
    method ExecuteTask(id: nat, rpc: RpcResult) returns (code: int, sent: Option<Request>)
      requires Wired()
      modifies this, db
      ensures Wired() && (State(), code) == Execute(old(State()), id, rpc)
      ensures sent.Some? <==> ExecuteBegin(old(State()), id).1 == 200
      ensures sent.Some? ==> id in old(tasks) && sent.value == RequestFor(old(State()), id)
    {
      sent := None;
      if id !in tasks {
        return 404, None;
      }
      var t := tasks[id];
      var resuming := t.state.Executing?;
      if !t.state.AwaitingApproval? && !resuming {
        if !t.approved {
          return 403, None;
        }
        return 409, None;
      }
      if !t.approved && !resuming {
        return 403, None;
      }
      if !resuming {
        var consumed := approvalRepo.ConsumeAndMarkExecuting(id, t.planVersion, t.approvalHash);
        if !consumed {
          return 409, None;
        }
        tasks := tasks[id := t.(state := Executing)];
      }
      var req := BuildRequest(RequestId(id, t.planVersion), TaskName(id), WorkspaceName(t.workspace),
                              t.planVersion, t.approvalHash, t.plan);
      sent := Some(req);
      if rpc.Lost? {
        return 502, sent;
      }
      if rpc.NoResponse? || rpc.response.status != "SUCCEEDED" {
        Transition(id, Failed);
        return 409, sent;
      }
      ghost var c1 := State();
      tasks := tasks[id := tasks[id].(verification := Some(rpc.response))];
      Transition(id, Verifying);
      SaveOver(c1, id, c1.tasks[id].(verification := Some(rpc.response)),
               c1.tasks[id].(verification := Some(rpc.response), state := Verifying));
      Transition(id, Succeeded);
      return 200, sent;
    }
  }
}
