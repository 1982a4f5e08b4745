/** The council's task handlers: every section that runs under the API's lock, as a
    change of the in-memory tasks and of the database. */
module CouncilSteps {
  import opened Results
  import opened Text
  import opened Plans
  import opened Wire
  import opened Approvals
  import Hashing = Approval

  /** The API's memory and the database behind it. */
  datatype Council = Council(tasks: map<nat, Task>, workspaces: set<nat>, nextId: nat, db: Tables)

  function TaskName(id: nat): string { "task-" + Dec(id) }

  function WorkspaceName(id: nat): string { "workspace-" + Dec(id) }

  function RequestId(id: nat, version: int): string { TaskName(id) + ":" + Itoa(version) }

  function HashOf(digest: Hashing.Digest, id: nat, ws: nat, plan: Plan): string {
    Hashing.Hash(digest, TaskName(id), WorkspaceName(ws), plan)
  }

  // ------------------------------------------------------- lock sections

  /** persistTask: every column of an existing row but the workspace. */
  function Persist(c: Council, id: nat): Council
    requires id in c.tasks
  {
    if id !in c.db.tasks then c
    else c.(db := c.db.(tasks := c.db.tasks[id := c.tasks[id].(workspace := c.db.tasks[id].workspace)]))
  }

  function SetTask(c: Council, id: nat, t: Task): Council { c.(tasks := c.tasks[id := t]) }

  function Save(c: Council, id: nat, t: Task): Council { Persist(SetTask(c, id, t), id) }

  function AddWorkspace(c: Council): Council {
    var id := c.nextId + 1;
    c.(nextId := id, workspaces := c.workspaces + {id}, db := c.db.(workspaces := c.db.workspaces + {id}))
  }

  /** The first row of a task holds no plan; memory holds one with the version set. */
  function NewTask(ws: nat, acceptance: seq<string>): Task {
    Task(Draft, ws, acceptance, 1, "", false, NO_PLAN.(version := 1), None)
  }

  function CreateTask(c: Council, ws: nat, acceptance: seq<string>): (Council, int) {
    if acceptance == [] then (c, 400)
    else if ws !in c.workspaces then (c, 400)
    else
      var id, t := c.nextId + 1, NewTask(ws, acceptance);
      (c.(nextId := id, tasks := c.tasks[id := t],
          db := c.db.(tasks := c.db.tasks[id := t.(plan := NO_PLAN)])), 201)
  }

  /** The second look at the state in startTask, and the move to ANALYZING; 200 lets the
      deliberation begin. */
  function BeginStart(c: Council, id: nat): (Council, int) {
    if id !in c.tasks then (c, 404)
    else if !c.tasks[id].state.Draft? then (c, 409)
    else (Save(c, id, c.tasks[id].(state := Analyzing)), 200)
  }

  function FailStart(c: Council, id: nat): Council {
    if id !in c.tasks || c.tasks[id].state.Failed? then c
    else Save(c, id, c.tasks[id].(state := Failed))
  }

  /** What startTask makes of the council's plan. */
  function Adopt(t: Task, plan: Plan): Task {
    var plan1 := if plan.version == 0 then plan.(version := t.planVersion) else plan;
    var plan2 := if Elems(plan1.acceptance) == [] then
                   plan1.(acceptance := if t.acceptance == [] then Nil else Items(t.acceptance))
                 else plan1;
    t.(plan := plan2, planVersion := plan1.version)
  }

  function Submit(c: Council, digest: Hashing.Digest, id: nat, t: Task): Council {
    Save(c, id, t.(approvalHash := HashOf(digest, id, t.workspace, t.plan), state := AwaitingApproval))
  }

  /** The last section of startTask; `plan` is None when no council is configured. */
  function FinishStart(c: Council, digest: Hashing.Digest, id: nat, plan: Option<Plan>): (Council, int) {
    if id !in c.tasks then (c, 404)
    else if !c.tasks[id].state.Draft? && !c.tasks[id].state.Analyzing? then (c, 409)
    else
      var t := c.tasks[id];
      (Submit(c, digest, id, if plan.Some? then Adopt(t, plan.value) else t), 200)
  }

  /** approveTask's checks; 200 lets it write. */
  function ApproveCheck(c: Council, id: nat, version: int, hash: string): int {
    if hash == "" then 400
    else if id !in c.tasks then 404
    else if !c.tasks[id].state.AwaitingApproval? || version != c.tasks[id].planVersion then 409
    else if hash != c.tasks[id].approvalHash then 409
    else 200
  }

  function ApproveInvalidate(c: Council, id: nat): Council {
    c.(db := c.db.(approvals := Invalidate(c.db.approvals, id)))
  }

  function ApprovedRow(id: nat, version: int, hash: string): ApprovalRow {
    ApprovalRow(id, version, hash, "approved", false, false)
  }

  /** False when the row's id, a clock reading, is taken. */
  function ApproveSave(c: Council, id: nat, version: int, hash: string, row: int): (Council, bool) {
    if row in c.db.approvals then (c, false)
    else (c.(db := c.db.(approvals := c.db.approvals[row := ApprovedRow(id, version, hash)])), true)
  }

  function ApprovePersist(c: Council, id: nat): Council
    requires id in c.tasks
  {
    Save(c, id, c.tasks[id].(approved := true))
  }

  function Approve(c: Council, id: nat, version: int, hash: string, row: int): (Council, int) {
    var code := ApproveCheck(c, id, version, hash);
    if code != 200 then (c, code)
    else
      var (c', ok) := ApproveSave(ApproveInvalidate(c, id), id, version, hash, row);
      if ok then (ApprovePersist(c', id), 200) else (c', 500)
  }

  /** reject and cancel leave the same state behind. */
  function Stop(c: Council, id: nat): (Council, int) {
    if id !in c.tasks then (c, 404)
    else (Save(c, id, c.tasks[id].(state := Cancelled, approved := false)), 200)
  }

  /** executeTask up to the call: 200 lets the request go out. */
  function ExecuteBegin(c: Council, id: nat): (Council, int) {
    if id !in c.tasks then (c, 404)
    else
      var t := c.tasks[id];
      if t.state.Executing? then (c, 200)
      else if !t.state.AwaitingApproval? then (c, if t.approved then 409 else 403)
      else if !t.approved then (c, 403)
      else
        var (db', started) := ConsumeAndStart(c.db, id, t.planVersion, t.approvalHash);
        if !started then (c, 409)
        else (SetTask(c, id, t.(state := Executing)).(db := db'), 200)
  }

  function RequestFor(c: Council, id: nat): Request
    requires id in c.tasks
  {
    var t := c.tasks[id];
    Build(RequestId(id, t.planVersion), TaskName(id), WorkspaceName(t.workspace), t.planVersion, t.approvalHash, t.plan)
  }

  /** What the RPC brought back. */
  datatype RpcResult = Lost | NoResponse | Answer(response: Response)

  function MarkFailed(c: Council, id: nat): Council
    requires id in c.tasks
  {
    Save(c, id, c.tasks[id].(state := Failed))
  }

  function MarkVerifying(c: Council, id: nat, r: Response): Council
    requires id in c.tasks
  {
    Save(c, id, c.tasks[id].(verification := Some(r), state := Verifying))
  }

  function MarkSucceeded(c: Council, id: nat): Council
    requires id in c.tasks
  {
    Save(c, id, c.tasks[id].(state := Succeeded))
  }

  function ExecuteEnd(c: Council, id: nat, rpc: RpcResult): (Council, int)
    requires id in c.tasks
  {
    match rpc
    case Lost => (c, 502)
    case NoResponse => (MarkFailed(c, id), 409)
    case Answer(r) =>
      if r.status != "SUCCEEDED" then (MarkFailed(c, id), 409)
      else (MarkSucceeded(MarkVerifying(c, id, r), id), 200)
  }

  function Execute(c: Council, id: nat, rpc: RpcResult): (Council, int) {
    var (c1, code) := ExecuteBegin(c, id);
    if code != 200 then (c1, code) else ExecuteEnd(c1, id, rpc)
  }

  /** A verification column without a request id is no verification. */
  function Rehydrated(t: Task): Task {
    t.(verification := if t.verification.Some? && t.verification.value.requestId != "" then t.verification else None)
  }

  /** The largest number in any id, or 0. */
  predicate IsLastId(db: Tables, n: nat) {
    && (forall id :: id in db.tasks ==> id <= n)
    && (forall id :: id in db.workspaces ==> id <= n)
    && (n == 0 || n in db.tasks || n in db.workspaces)
  }

  function Restarted(db: Tables, nextId: nat): Council {
    Council(map id | id in db.tasks :: Rehydrated(db.tasks[id]), db.workspaces, nextId, db)
  }
}
