/** The council process over all its runs: handlers cut at every point where the
    process can die or the runner is waited for, restarts that rebuild memory from the
    database, and deliberations that run outside the lock. */
module CouncilProtocol {
  import opened Results
  import opened Plans
  import opened Wire
  import opened Approvals
  import opened CouncilSteps
  import Hashing = Approval

  /** The handler that holds the API's lock, and how far it is. */
  datatype Holder =
    | Free
    | Invalidated(id: nat, version: int, hash: string)   // approveTask: old rows invalidated
    | Saved(id: nat)                                     // approveTask: new row saved
    | Sending(id: nat)                                   // executeTask: about to call the runner
    | Waiting(id: nat, msg: nat)                         // executeTask: call on its way
    | Verified(id: nat)                                  // executeTask: VERIFYING recorded

  /** A completed approve step. */
  datatype Acceptance = Acceptance(id: nat, workspace: nat, version: int, hash: string, plan: Plan)

  /** Why a request was sent: the task's snapshot, and how many acceptances came before. */
  datatype Origin = Origin(what: Acceptance, before: nat)

  datatype Side = Side(
    council: Council,
    holder: Holder,
    starts: set<nat>,
    accepted: seq<Acceptance>,
    reqs: seq<Request>,
    origins: seq<Origin>)

  /** Whether a council is configured to deliberate, and the approval digest. */
  datatype Env = Env(digest: Hashing.Digest, deliberates: bool)

  datatype Step =
    | CreateWorkspace
    | Create(workspace: nat, acceptance: seq<string>)
    | StartDeliberating(id: nat)
    | DeliberationFailed(id: nat)
    | DeliberationDone(id: nat, plan: Plan)
    | StartPlain(id: nat)
    | ApproveFirst(id: nat, version: int, hash: string)
    | ApproveSecond(row: int)
    | ApproveThird
    | StopTask(id: nat)
    | ExecuteFirst(id: nat)
    | Send
    | TakeReply
    | LoseReply
    | EmptyReply
    | RecordSuccess
    | Restart(nextId: nat)

  const EMPTY := Side(Council(map[], {}, 0, Tables(map[], map[], {})), Free, {}, [], [], [])

  function Snapshot(c: Council, id: nat): Acceptance
    requires id in c.tasks
  {
    var t := c.tasks[id];
    Acceptance(id, t.workspace, t.planVersion, t.approvalHash, t.plan)
  }

  /** A handler that takes the lock, does one atomic thing and lets go. */
  function Brief(s: Side, c: Council): Side { s.(council := c) }

  /** `replies` are the runner's answers by message. A step that is not possible changes nothing. */
  function Do(env: Env, replies: map<nat, Response>, s: Side, st: Step): Side {
    var c := s.council;
    match st
    case Restart(nextId) =>
      if !IsLastId(c.db, nextId) then s
      else s.(council := Restarted(c.db, nextId), holder := Free, starts := {})
    case ApproveSecond(row) =>
      if !s.holder.Invalidated? then s
      else
        var (c', ok) := ApproveSave(c, s.holder.id, s.holder.version, s.holder.hash, row);
        s.(council := c', holder := if ok then Saved(s.holder.id) else Free)
    case ApproveThird =>
      if !s.holder.Saved? || s.holder.id !in c.tasks then s
      else
        s.(council := ApprovePersist(c, s.holder.id), holder := Free,
           accepted := s.accepted + [Snapshot(c, s.holder.id)])
    case Send =>
      if !s.holder.Sending? || s.holder.id !in c.tasks then s
      else
        s.(holder := Waiting(s.holder.id, |s.reqs|), reqs := s.reqs + [RequestFor(c, s.holder.id)],
           origins := s.origins + [Origin(Snapshot(c, s.holder.id), |s.accepted|)])
    case TakeReply =>
      if !s.holder.Waiting? || s.holder.msg !in replies || s.holder.id !in c.tasks then s
      else if replies[s.holder.msg].status != "SUCCEEDED" then
        s.(council := MarkFailed(c, s.holder.id), holder := Free)
      else
        s.(council := MarkVerifying(c, s.holder.id, replies[s.holder.msg]), holder := Verified(s.holder.id))
    case LoseReply => if s.holder.Waiting? then s.(holder := Free) else s
    case EmptyReply =>
      if !s.holder.Waiting? || s.holder.id !in c.tasks then s
      else s.(council := MarkFailed(c, s.holder.id), holder := Free)
    case RecordSuccess =>
      if !s.holder.Verified? || s.holder.id !in c.tasks then s
      else s.(council := MarkSucceeded(c, s.holder.id), holder := Free)
    case _ => if s.holder.Free? then TakeLock(env, s, st) else s
  }

  /** The steps that begin by taking the free lock. */
  function TakeLock(env: Env, s: Side, st: Step): Side {
    var c := s.council;
    match st
    case CreateWorkspace => Brief(s, AddWorkspace(c))
    case Create(ws, acceptance) => Brief(s, CreateTask(c, ws, acceptance).0)
    case StartDeliberating(id) =>
      if !env.deliberates then s
      else
        var (c', code) := BeginStart(c, id);
        Brief(s, c').(starts := if code == 200 then s.starts + {id} else s.starts)
    case DeliberationFailed(id) =>
      if id !in s.starts then s else Brief(s, FailStart(c, id)).(starts := s.starts - {id})
    case DeliberationDone(id, plan) =>
      if id !in s.starts then s
      else Brief(s, FinishStart(c, env.digest, id, Some(plan)).0).(starts := s.starts - {id})
    case StartPlain(id) =>
      if env.deliberates || id !in c.tasks || !c.tasks[id].state.Draft? then s
      else Brief(s, FinishStart(c, env.digest, id, None).0)
    case ApproveFirst(id, version, hash) =>
      if ApproveCheck(c, id, version, hash) != 200 then s
      else Brief(s, ApproveInvalidate(c, id)).(holder := Invalidated(id, version, hash))
    case StopTask(id) => Brief(s, Stop(c, id).0)
    case ExecuteFirst(id) =>
      var (c', code) := ExecuteBegin(c, id);
      if code == 200 then Brief(s, c').(holder := Sending(id)) else s
    case _ => s
  }

  /** The steps of startTask. */
  predicate Starting(st: Step) {
    st.StartDeliberating? || st.DeliberationFailed? || st.DeliberationDone? || st.StartPlain?
  }

  // ------------------------------------------------------------- invariant

  /** From AWAITING_APPROVAL on, unless stopped. */
  predicate Planned(t: Task) {
    t.state.AwaitingApproval? || t.state.Executing? || t.state.Verifying? || t.state.Succeeded?
  }

  /** Approved, or past the point where approval is asked for. */
  predicate Underway(t: Task) {
    t.state.Executing? || t.state.Verifying? || t.state.Succeeded? || (t.state.AwaitingApproval? && t.approved)
  }

  predicate Preparing(t: Task) { t.state.Draft? || t.state.Analyzing? }

  /** A row lags behind memory only in DRAFT, where it may hold no plan yet. */
  predicate Agrees(t: Task, row: Task) { row == t || (t.state.Draft? && row == t.(plan := NO_PLAN)) }

  predicate TaskOk(env: Env, s: Side, id: nat)
    requires id in s.council.tasks
  {
    var t := s.council.tasks[id];
    && id <= s.council.nextId
    && id in s.council.db.tasks && Agrees(t, s.council.db.tasks[id])
    && (t.verification.Some? ==> t.verification.value.requestId != "")
    && (Preparing(t) ==> !t.approved)
    && (Planned(t) ==> t.approvalHash == HashOf(env.digest, id, t.workspace, t.plan))
    && (Underway(t) ==> Snapshot(s.council, id) in s.accepted)
  }

  predicate HolderOk(s: Side) {
    (s.holder.Free? || s.holder.id in s.council.tasks) &&
    match s.holder
    case Free => true
    case Invalidated(id, version, hash) =>
      var t := s.council.tasks[id];
      t.state.AwaitingApproval? && t.planVersion == version && t.approvalHash == hash
    case Saved(id) => s.council.tasks[id].state.AwaitingApproval?
    case Sending(id) => s.council.tasks[id].state.Executing?
    case Waiting(id, msg) => s.council.tasks[id].state.Executing? && msg < |s.origins| && s.origins[msg].what.id == id
    case Verified(id) => s.council.tasks[id].state.Verifying?
  }

  /** A deliberation runs for a task in ANALYZING, unless it was stopped meanwhile. */
  predicate StartsOk(s: Side) {
    forall id :: id in s.starts ==>
      id in s.council.tasks && (s.council.tasks[id].state.Analyzing? || s.council.tasks[id].state.Cancelled?)
  }

  /** A run has at most one row not invalidated and at most one consumed, and a consumed
      one only once the task has left AWAITING_APPROVAL for good. */
  predicate RowsOk(s: Side) {
    var rows := s.council.db.approvals;
    && (forall a, b | a in rows && b in rows ::
          rows[a].runId == rows[b].runId && !rows[a].invalidated && !rows[b].invalidated ==> a == b)
    && (forall a, b | a in rows && b in rows ::
          rows[a].runId == rows[b].runId && rows[a].consumed && rows[b].consumed ==> a == b)
    && (forall a | a in rows ::
          && rows[a].runId in s.council.tasks
          && (rows[a].consumed ==>
                var t := s.council.tasks[rows[a].runId];
                !Preparing(t) && !t.state.AwaitingApproval?)
          && (s.holder.Invalidated? && rows[a].runId == s.holder.id ==> rows[a].invalidated))
  }

  /** What a request carries was accepted before it was sent, and is still the task's. */
  predicate OriginOk(env: Env, s: Side, m: nat)
    requires m < |s.origins| && |s.origins| == |s.reqs|
  {
    var o := s.origins[m];
    && o.before <= |s.accepted| && o.what in s.accepted[..o.before]
    && o.what.hash == HashOf(env.digest, o.what.id, o.what.workspace, o.what.plan)
    && s.reqs[m] == Build(RequestId(o.what.id, o.what.version), TaskName(o.what.id), WorkspaceName(o.what.workspace),
                          o.what.version, o.what.hash, o.what.plan)
    && o.what.id in s.council.tasks && o.what == Snapshot(s.council, o.what.id)
    && !Preparing(s.council.tasks[o.what.id]) && !s.council.tasks[o.what.id].state.AwaitingApproval?
  }

  predicate TablesOk(s: Side) {
    && s.council.tasks.Keys == s.council.db.tasks.Keys
    && s.council.workspaces == s.council.db.workspaces
    && (forall ws :: ws in s.council.workspaces ==> ws <= s.council.nextId)
  }

  predicate OriginsOk(env: Env, s: Side) {
    && |s.origins| == |s.reqs|
    && forall m :: 0 <= m < |s.origins| ==> OriginOk(env, s, m)
  }

  predicate Inv(env: Env, s: Side) {
    && TablesOk(s)
    && (forall id :: id in s.council.tasks ==> TaskOk(env, s, id))
    && HolderOk(s) && StartsOk(s) && RowsOk(s) && OriginsOk(env, s)
  }

  lemma InitInv(env: Env)
    ensures Inv(env, EMPTY)
  {
  }

  /** What one step may do to a task that exists: past ANALYZING its plan, version, hash
      and workspace are fixed, AWAITING_APPROVAL is never entered again, and a stopped
      or finished task stays so. */
  predicate Onward(t: Task, t': Task) {
    && t'.workspace == t.workspace
    && (!Preparing(t) ==>
          && !Preparing(t')
          && t'.plan == t.plan && t'.planVersion == t.planVersion && t'.approvalHash == t.approvalHash)
    && (!Preparing(t) && !t.state.AwaitingApproval? ==> !t'.state.AwaitingApproval?)
    && (Terminal(t.state) ==> Terminal(t'.state))
  }

  predicate AllOnward(s: Side, s': Side) {
    && s.accepted <= s'.accepted && s.reqs <= s'.reqs && s.origins <= s'.origins
    && forall id :: id in s.council.tasks ==>
         && id in s'.council.tasks && Onward(s.council.tasks[id], s'.council.tasks[id])
         && (Terminal(s.council.tasks[id].state) ==>
               forall m :: |s.origins| <= m < |s'.origins| ==> s'.origins[m].what.id != id)
  }

  // ------------------------------------- steps that save one existing task

  function SetBoth(c: Council, id: nat, t: Task): Council {
    c.(tasks := c.tasks[id := t], db := c.db.(tasks := c.db.tasks[id := t]))
  }

  lemma SaveSetsBoth(c: Council, id: nat, t: Task)
    requires id in c.db.tasks && c.db.tasks[id].workspace == t.workspace
    ensures Save(c, id, t) == SetBoth(c, id, t)
  {
    assert t.(workspace := t.workspace) == t;
  }

  /** What must hold of the new value of a saved task. */
  predicate Saveable(env: Env, id: nat, t: Task, t': Task, accepted: seq<Acceptance>) {
    && Onward(t, t')
    && (t'.verification.Some? ==> t'.verification.value.requestId != "")
    && (Preparing(t') ==> !t'.approved)
    && (Planned(t') ==> t'.approvalHash == HashOf(env.digest, id, t'.workspace, t'.plan))
    && (Underway(t') ==> Acceptance(id, t'.workspace, t'.planVersion, t'.approvalHash, t'.plan) in accepted)
  }

  /** s' is s with one task saved, and possibly one row consumed. */
  predicate SavesOne(env: Env, s: Side, s': Side, id: nat, t': Task) {
    && id in s.council.tasks
    && s'.council == SetBoth(s.council, id, t').(db := s'.council.db)
    && s'.council.db.tasks == s.council.db.tasks[id := t'] && s'.council.db.workspaces == s.council.db.workspaces
    && s.accepted <= s'.accepted && s'.reqs == s.reqs && s'.origins == s.origins
    && Saveable(env, id, s.council.tasks[id], t', s'.accepted)
    && !s'.holder.Invalidated?
  }

  lemma SaveKeepsTasks(env: Env, s: Side, s': Side, id: nat, t': Task)
    requires Inv(env, s) && SavesOne(env, s, s', id, t')
    ensures TablesOk(s') && forall k :: k in s'.council.tasks ==> TaskOk(env, s', k)
  {
    forall k | k in s'.council.tasks ensures TaskOk(env, s', k) {
      assert TaskOk(env, s, k);
    }
  }

  lemma SaveKeepsOrigins(env: Env, s: Side, s': Side, id: nat, t': Task)
    requires Inv(env, s) && SavesOne(env, s, s', id, t')
    ensures OriginsOk(env, s')
  {
    forall m | 0 <= m < |s'.origins| ensures OriginOk(env, s', m) {
      assert OriginOk(env, s, m);
      assert s'.accepted[..s.origins[m].before] == s.accepted[..s.origins[m].before];
    }
  }

  lemma SaveKeepsRows(env: Env, s: Side, s': Side, id: nat, t': Task)
    requires Inv(env, s) && SavesOne(env, s, s', id, t') && s'.council.db.approvals == s.council.db.approvals
    ensures RowsOk(s')
  {
  }

  lemma SaveKeeps(env: Env, s: Side, s': Side, id: nat, t': Task)
    requires Inv(env, s) && SavesOne(env, s, s', id, t') && s'.council.db.approvals == s.council.db.approvals
    requires HolderOk(s') && StartsOk(s')
    ensures Inv(env, s')
  {
    SaveKeepsTasks(env, s, s', id, t');
    SaveKeepsOrigins(env, s, s', id, t');
    SaveKeepsRows(env, s, s', id, t');
  }

  /** Each lock section that saves a task, as the value it saves. */
  function SavedTask(env: Env, replies: map<nat, Response>, s: Side, st: Step): Option<(nat, Task)> {
    var c := s.council;
    match st
    case StartDeliberating(id) =>
      if env.deliberates && s.holder.Free? && id in c.tasks && c.tasks[id].state.Draft? then
        Some((id, c.tasks[id].(state := Analyzing)))
      else None
    case DeliberationFailed(id) =>
      if s.holder.Free? && id in s.starts && id in c.tasks && !c.tasks[id].state.Failed? then
        Some((id, c.tasks[id].(state := Failed)))
      else None
    case DeliberationDone(id, plan) =>
      if s.holder.Free? && id in s.starts && id in c.tasks && Preparing(c.tasks[id]) then
        Some((id, Submitted(env, id, Adopt(c.tasks[id], plan))))
      else None
    case StartPlain(id) =>
      if !env.deliberates && s.holder.Free? && id in c.tasks && c.tasks[id].state.Draft? then
        Some((id, Submitted(env, id, c.tasks[id])))
      else None
    case ApproveThird =>
      if s.holder.Saved? && s.holder.id in c.tasks then Some((s.holder.id, c.tasks[s.holder.id].(approved := true)))
      else None
    case StopTask(id) =>
      if s.holder.Free? && id in c.tasks then Some((id, c.tasks[id].(state := Cancelled, approved := false))) else None
    case TakeReply =>
      if !s.holder.Waiting? || s.holder.msg !in replies || s.holder.id !in c.tasks then None
      else
        var r := replies[s.holder.msg];
        var t := c.tasks[s.holder.id];
        Some((s.holder.id, if r.status != "SUCCEEDED" then t.(state := Failed)
                           else t.(verification := Some(r), state := Verifying)))
    case EmptyReply =>
      if s.holder.Waiting? && s.holder.id in c.tasks then Some((s.holder.id, c.tasks[s.holder.id].(state := Failed)))
      else None
    case RecordSuccess =>
      if s.holder.Verified? && s.holder.id in c.tasks then
        Some((s.holder.id, c.tasks[s.holder.id].(state := Succeeded)))
      else None
    case _ => None
  }

  function Submitted(env: Env, id: nat, t: Task): Task {
    t.(approvalHash := HashOf(env.digest, id, t.workspace, t.plan), state := AwaitingApproval)
  }

  predicate RepliesHaveIds(replies: map<nat, Response>) {
    forall m :: m in replies ==> replies[m].requestId != ""
  }

  predicate SavesTask(env: Env, replies: map<nat, Response>, s: Side, st: Step) {
    SavedTask(env, replies, s, st).Some?
  }

  /** Saving changes one task, in memory and in its row alike. */
  lemma SaveStepSets(env: Env, replies: map<nat, Response>, s: Side, st: Step)
    requires SavesTask(env, replies, s, st)
    requires TaskOk(env, s, SavedTask(env, replies, s, st).value.0)
    ensures var (id, t') := SavedTask(env, replies, s, st).value;
            Do(env, replies, s, st).council == SetBoth(s.council, id, t')
  {
    var (id, t') := SavedTask(env, replies, s, st).value;
    SaveSetsBoth(s.council, id, t');
  }

  lemma SaveStepOnward(env: Env, replies: map<nat, Response>, s: Side, st: Step)
    requires SavesTask(env, replies, s, st) && HolderOk(s)
    ensures var (id, t') := SavedTask(env, replies, s, st).value;
            Onward(s.council.tasks[id], t')
  {
  }

  lemma SaveStepSaveable(env: Env, replies: map<nat, Response>, s: Side, st: Step)
    requires SavesTask(env, replies, s, st) && HolderOk(s) && RepliesHaveIds(replies)
    requires TaskOk(env, s, SavedTask(env, replies, s, st).value.0)
    ensures var (id, t') := SavedTask(env, replies, s, st).value;
            Saveable(env, id, s.council.tasks[id], t', Do(env, replies, s, st).accepted)
  {
    SaveStepOnward(env, replies, s, st);
  }

  lemma SaveStepShape(env: Env, replies: map<nat, Response>, s: Side, st: Step)
    requires HolderOk(s) && RepliesHaveIds(replies) && SavesTask(env, replies, s, st)
    requires TaskOk(env, s, SavedTask(env, replies, s, st).value.0)
    ensures var (id, t') := SavedTask(env, replies, s, st).value;
            && SavesOne(env, s, Do(env, replies, s, st), id, t')
            && Do(env, replies, s, st).council.db.approvals == s.council.db.approvals
  {
    SaveStepSets(env, replies, s, st);
    SaveStepSaveable(env, replies, s, st);
  }

  lemma SaveStepKeepsHolder(env: Env, replies: map<nat, Response>, s: Side, st: Step)
    requires HolderOk(s) && SavesTask(env, replies, s, st)
    requires var (id, t') := SavedTask(env, replies, s, st).value;
             Do(env, replies, s, st).council == SetBoth(s.council, id, t')
    ensures HolderOk(Do(env, replies, s, st))
  {
  }

  lemma SaveStepKeepsStarts(env: Env, replies: map<nat, Response>, s: Side, st: Step)
    requires HolderOk(s) && StartsOk(s) && SavesTask(env, replies, s, st)
    requires var (id, t') := SavedTask(env, replies, s, st).value;
             Do(env, replies, s, st).council == SetBoth(s.council, id, t')
    ensures StartsOk(Do(env, replies, s, st))
  {
  }

  lemma SaveStepKeeps(env: Env, replies: map<nat, Response>, s: Side, st: Step)
    requires Inv(env, s) && RepliesHaveIds(replies) && SavesTask(env, replies, s, st)
    ensures Inv(env, Do(env, replies, s, st))
  {
    var (id, t') := SavedTask(env, replies, s, st).value;
    var s' := Do(env, replies, s, st);
    assert TaskOk(env, s, id);
    SaveStepShape(env, replies, s, st);
    SaveStepSets(env, replies, s, st);
    SaveStepKeepsHolder(env, replies, s, st);
    SaveStepKeepsStarts(env, replies, s, st);
    SaveKeeps(env, s, s', id, t');
  }

  lemma SavesOneIsOnward(env: Env, s: Side, s': Side, id: nat, t': Task)
    requires SavesOne(env, s, s', id, t')
    ensures AllOnward(s, s')
  {
  }

  lemma SaveStepOnwardAll(env: Env, replies: map<nat, Response>, s: Side, st: Step)
    requires HolderOk(s) && RepliesHaveIds(replies) && SavesTask(env, replies, s, st)
    requires TaskOk(env, s, SavedTask(env, replies, s, st).value.0)
    ensures AllOnward(s, Do(env, replies, s, st))
  {
    var (id, t') := SavedTask(env, replies, s, st).value;
    SaveStepShape(env, replies, s, st);
    SavesOneIsOnward(env, s, Do(env, replies, s, st), id, t');
  }

  // ------------------------------------------------------ the other steps

  /** Tasks, requests and acceptances stay; new requests may follow. */
  lemma SameTasks(env: Env, s: Side, s': Side)
    requires forall id :: id in s.council.tasks ==> TaskOk(env, s, id)
    requires OriginsOk(env, s)
    requires s'.council.tasks == s.council.tasks && s'.council.db.tasks == s.council.db.tasks
    requires s'.council.nextId >= s.council.nextId && s'.accepted == s.accepted
    requires s.reqs <= s'.reqs && s.origins <= s'.origins && |s'.reqs| == |s'.origins|
    ensures forall id :: id in s'.council.tasks ==> TaskOk(env, s', id)
    ensures forall m :: 0 <= m < |s.origins| ==> OriginOk(env, s', m)
  {
    forall id | id in s'.council.tasks ensures TaskOk(env, s', id) {
      assert TaskOk(env, s, id);
    }
    forall m | 0 <= m < |s.origins| ensures OriginOk(env, s', m) {
      assert OriginOk(env, s, m);
    }
  }

  /** Existing tasks keep their values, and no new request is for a finished one. */
  lemma Unmoved(s: Side, s': Side)
    requires s.accepted <= s'.accepted && s.reqs <= s'.reqs && s.origins <= s'.origins
    requires forall id :: id in s.council.tasks ==>
               id in s'.council.tasks && s'.council.tasks[id] == s.council.tasks[id]
    requires forall m :: |s.origins| <= m < |s'.origins| ==>
               var id := s'.origins[m].what.id; id in s.council.tasks && !Terminal(s.council.tasks[id].state)
    ensures AllOnward(s, s')
  {
  }

  /** Nothing but the holder changes. */
  lemma HolderChange(env: Env, s: Side, holder: Holder)
    requires Inv(env, s) && HolderOk(s.(holder := holder)) && !holder.Invalidated?
    ensures Inv(env, s.(holder := holder)) && AllOnward(s, s.(holder := holder))
  {
    var s' := s.(holder := holder);
    SameTasks(env, s, s');
    Unmoved(s, s');
  }

  lemma WorkspaceKeeps(env: Env, s: Side)
    requires Inv(env, s)
    ensures Inv(env, Brief(s, AddWorkspace(s.council))) && AllOnward(s, Brief(s, AddWorkspace(s.council)))
  {
    var s' := Brief(s, AddWorkspace(s.council));
    SameTasks(env, s, s');
    Unmoved(s, s');
  }

  lemma FreshId(env: Env, s: Side)
    requires forall id :: id in s.council.tasks ==> TaskOk(env, s, id)
    ensures s.council.nextId + 1 !in s.council.tasks
  {
  }

  lemma CreateKeepsTasks(env: Env, s: Side, ws: nat, acceptance: seq<string>)
    requires forall id :: id in s.council.tasks ==> TaskOk(env, s, id)
    requires OriginsOk(env, s)
    ensures var s' := Brief(s, CreateTask(s.council, ws, acceptance).0);
            (forall id :: id in s'.council.tasks ==> TaskOk(env, s', id)) && OriginsOk(env, s')
  {
    var s' := Brief(s, CreateTask(s.council, ws, acceptance).0);
    FreshId(env, s);
    forall id | id in s'.council.tasks ensures TaskOk(env, s', id) {
      assert id in s.council.tasks ==> TaskOk(env, s, id);
    }
    forall m | 0 <= m < |s'.origins| ensures OriginOk(env, s', m) {
      assert OriginOk(env, s, m);
    }
  }

  lemma CreateKeepsRest(env: Env, s: Side, ws: nat, acceptance: seq<string>)
    requires TablesOk(s) && StartsOk(s) && RowsOk(s) && s.holder.Free?
    requires s.council.nextId + 1 !in s.council.tasks
    ensures var s' := Brief(s, CreateTask(s.council, ws, acceptance).0);
            TablesOk(s') && HolderOk(s') && StartsOk(s') && RowsOk(s')
  {
  }

  lemma CreateKeeps(env: Env, s: Side, ws: nat, acceptance: seq<string>)
    requires Inv(env, s) && s.holder.Free?
    ensures Inv(env, Brief(s, CreateTask(s.council, ws, acceptance).0))
    ensures AllOnward(s, Brief(s, CreateTask(s.council, ws, acceptance).0))
  {
    FreshId(env, s);
    CreateKeepsTasks(env, s, ws, acceptance);
    CreateKeepsRest(env, s, ws, acceptance);
    Unmoved(s, Brief(s, CreateTask(s.council, ws, acceptance).0));
  }

  /** Only the approval rows and the holder change. */
  lemma RowsChange(env: Env, s: Side, s': Side)
    requires Inv(env, s)
    requires s'.council == s.council.(db := s.council.db.(approvals := s'.council.db.approvals))
    requires s' == s.(council := s'.council, holder := s'.holder)
    requires HolderOk(s') && RowsOk(s')
    ensures Inv(env, s') && AllOnward(s, s')
  {
    SameTasks(env, s, s');
    Unmoved(s, s');
  }

  lemma ApproveFirstKeepsRows(env: Env, replies: map<nat, Response>, s: Side, st: Step)
    requires RowsOk(s) && st.ApproveFirst? && s.holder.Free?
    ensures RowsOk(Do(env, replies, s, st)) && HolderOk(Do(env, replies, s, st))
  {
  }

  lemma ApproveFirstKeeps(env: Env, replies: map<nat, Response>, s: Side, st: Step)
    requires Inv(env, s) && st.ApproveFirst? && s.holder.Free?
    ensures Inv(env, Do(env, replies, s, st)) && AllOnward(s, Do(env, replies, s, st))
  {
    ApproveFirstKeepsRows(env, replies, s, st);
    RowsChange(env, s, Do(env, replies, s, st));
  }

  lemma ApproveSecondKeepsRows(env: Env, replies: map<nat, Response>, s: Side, st: Step)
    requires RowsOk(s) && HolderOk(s) && st.ApproveSecond? && s.holder.Invalidated?
    ensures RowsOk(Do(env, replies, s, st)) && HolderOk(Do(env, replies, s, st))
  {
  }

  lemma ApproveSecondKeeps(env: Env, replies: map<nat, Response>, s: Side, st: Step)
    requires Inv(env, s) && st.ApproveSecond? && s.holder.Invalidated?
    ensures Inv(env, Do(env, replies, s, st)) && AllOnward(s, Do(env, replies, s, st))
  {
    ApproveSecondKeepsRows(env, replies, s, st);
    RowsChange(env, s, Do(env, replies, s, st));
  }

  lemma SentIsAccepted(env: Env, s: Side, s': Side, id: nat)
    requires id in s.council.tasks && TaskOk(env, s, id) && s.council.tasks[id].state.Executing?
    requires s'.council == s.council && s'.accepted == s.accepted && |s.reqs| == |s.origins|
    requires s'.reqs == s.reqs + [RequestFor(s.council, id)]
    requires s'.origins == s.origins + [Origin(Snapshot(s.council, id), |s.accepted|)]
    ensures OriginOk(env, s', |s.origins|)
  {
    assert s.accepted[..|s.accepted|] == s.accepted;
  }

  lemma SendKeepsOrigins(env: Env, s: Side, s': Side, id: nat)
    requires forall k :: k in s.council.tasks ==> TaskOk(env, s, k)
    requires OriginsOk(env, s) && id in s.council.tasks && s.council.tasks[id].state.Executing?
    requires s'.council == s.council && s'.accepted == s.accepted
    requires s'.reqs == s.reqs + [RequestFor(s.council, id)]
    requires s'.origins == s.origins + [Origin(Snapshot(s.council, id), |s.accepted|)]
    ensures OriginsOk(env, s') && forall k :: k in s'.council.tasks ==> TaskOk(env, s', k)
  {
    SameTasks(env, s, s');
    SentIsAccepted(env, s, s', id);
  }

  lemma SendKeeps(env: Env, replies: map<nat, Response>, s: Side)
    requires Inv(env, s) && s.holder.Sending?
    ensures Inv(env, Do(env, replies, s, Send)) && AllOnward(s, Do(env, replies, s, Send))
  {
    var s' := Do(env, replies, s, Send);
    SendKeepsOrigins(env, s, s', s.holder.id);
    SendKeepsRest(env, replies, s);
    SendIsForExecuting(s, s');
  }

  lemma SendIsForExecuting(s: Side, s': Side)
    requires HolderOk(s) && s.holder.Sending? && s'.council == s.council
    requires s.accepted <= s'.accepted && s.reqs <= s'.reqs
    requires s'.origins == s.origins + [Origin(Snapshot(s.council, s.holder.id), |s.accepted|)]
    ensures AllOnward(s, s')
  {
  }

  lemma SendKeepsRest(env: Env, replies: map<nat, Response>, s: Side)
    requires TablesOk(s) && HolderOk(s) && StartsOk(s) && RowsOk(s) && s.holder.Sending? && |s.reqs| == |s.origins|
    ensures var s' := Do(env, replies, s, Send); TablesOk(s') && HolderOk(s') && StartsOk(s') && RowsOk(s')
  {
  }

  lemma ResumeChangesHolder(env: Env, replies: map<nat, Response>, s: Side, id: nat)
    requires s.holder.Free? && id in s.council.tasks && s.council.tasks[id].state.Executing?
    ensures Do(env, replies, s, ExecuteFirst(id)) == s.(holder := Sending(id))
  {
  }

  lemma ResumeKeeps(env: Env, replies: map<nat, Response>, s: Side, id: nat)
    requires Inv(env, s) && s.holder.Free? && id in s.council.tasks && s.council.tasks[id].state.Executing?
    ensures Inv(env, Do(env, replies, s, ExecuteFirst(id))) && AllOnward(s, Do(env, replies, s, ExecuteFirst(id)))
  {
    ResumeChangesHolder(env, replies, s, id);
    HolderChange(env, s, Sending(id));
  }

  lemma ExecuteShape(env: Env, replies: map<nat, Response>, s: Side, id: nat)
    requires Inv(env, s) && s.holder.Free?
    requires ExecuteBegin(s.council, id).1 == 200 && !s.council.tasks[id].state.Executing?
    ensures var s', t := Do(env, replies, s, ExecuteFirst(id)), s.council.tasks[id];
            && SavesOne(env, s, s', id, t.(state := Executing))
            && t.state.AwaitingApproval? && s'.holder == Sending(id) && s'.starts == s.starts
            && s'.council.db == ConsumeAndStart(s.council.db, id, t.planVersion, t.approvalHash).0
            && ConsumeAndStart(s.council.db, id, t.planVersion, t.approvalHash).1
  {
    assert TaskOk(env, s, id);
    var t := s.council.tasks[id];
    ConsumeAndStartIsAtomic(s.council.db, id, t.planVersion, t.approvalHash);
  }

  /** The row consumed is the task's first: it was still AWAITING_APPROVAL. */
  lemma ConsumeKeepsRows(s: Side, s': Side, id: nat, version: int, hash: string)
    requires RowsOk(s) && id in s.council.tasks && s.council.tasks[id].state.AwaitingApproval?
    requires ConsumeAndStart(s.council.db, id, version, hash).1
    requires s'.council.db == ConsumeAndStart(s.council.db, id, version, hash).0
    requires s'.council.tasks == s.council.tasks[id := s.council.tasks[id].(state := Executing)]
    requires !s'.holder.Invalidated?
    ensures RowsOk(s')
  {
    ConsumeAndStartIsAtomic(s.council.db, id, version, hash);
  }

  lemma ExecuteKeepsGuards(s: Side, s': Side, id: nat)
    requires StartsOk(s) && id in s.council.tasks && s.council.tasks[id].state.AwaitingApproval?
    requires s'.council.tasks == s.council.tasks[id := s.council.tasks[id].(state := Executing)]
    requires s'.holder == Sending(id) && s'.starts == s.starts
    ensures HolderOk(s') && StartsOk(s')
  {
  }

  lemma SaveWithRowsKeeps(env: Env, s: Side, s': Side, id: nat, t': Task)
    requires Inv(env, s) && SavesOne(env, s, s', id, t')
    requires HolderOk(s') && StartsOk(s') && RowsOk(s')
    ensures Inv(env, s') && AllOnward(s, s')
  {
    SaveKeepsTasks(env, s, s', id, t');
    SaveKeepsOrigins(env, s, s', id, t');
  }

  lemma ExecuteKeeps(env: Env, replies: map<nat, Response>, s: Side, id: nat)
    requires Inv(env, s) && s.holder.Free?
    requires ExecuteBegin(s.council, id).1 == 200 && !s.council.tasks[id].state.Executing?
    ensures Inv(env, Do(env, replies, s, ExecuteFirst(id))) && AllOnward(s, Do(env, replies, s, ExecuteFirst(id)))
  {
    var s', t := Do(env, replies, s, ExecuteFirst(id)), s.council.tasks[id];
    ExecuteShape(env, replies, s, id);
    ConsumeKeepsRows(s, s', id, t.planVersion, t.approvalHash);
    ExecuteKeepsGuards(s, s', id);
    SaveWithRowsKeeps(env, s, s', id, t.(state := Executing));
  }

  /** Reading a row back gives the task, except for the plan of a task still in DRAFT. */
  lemma RehydratedTask(env: Env, s: Side, id: nat)
    requires id in s.council.tasks && TaskOk(env, s, id)
    ensures Rehydrated(s.council.db.tasks[id]) == s.council.db.tasks[id]
    ensures Agrees(s.council.tasks[id], Rehydrated(s.council.db.tasks[id]))
  {
  }

  lemma RestartKeepsTask(env: Env, s: Side, n: nat, id: nat)
    requires id in s.council.tasks && TaskOk(env, s, id) && IsLastId(s.council.db, n)
    ensures TaskOk(env, s.(council := Restarted(s.council.db, n), holder := Free, starts := {}), id)
  {
    RehydratedTask(env, s, id);
  }

  lemma RestartKeepsOrigin(env: Env, s: Side, n: nat, m: nat)
    requires m < |s.origins| && |s.origins| == |s.reqs| && OriginOk(env, s, m)
    requires TaskOk(env, s, s.origins[m].what.id)
    ensures OriginOk(env, s.(council := Restarted(s.council.db, n), holder := Free, starts := {}), m)
  {
    RehydratedTask(env, s, s.origins[m].what.id);
  }

  lemma RestartAgrees(env: Env, s: Side, n: nat)
    requires forall id :: id in s.council.tasks ==> TaskOk(env, s, id)
    ensures forall id :: id in s.council.tasks ==>
              && id in Restarted(s.council.db, n).tasks
              && Agrees(s.council.tasks[id], Restarted(s.council.db, n).tasks[id])
  {
    forall id | id in s.council.tasks
      ensures id in Restarted(s.council.db, n).tasks
      ensures Agrees(s.council.tasks[id], Restarted(s.council.db, n).tasks[id])
    {
      RehydratedTask(env, s, id);
    }
  }

  lemma RestartKeepsRest(env: Env, s: Side, n: nat)
    requires TablesOk(s) && RowsOk(s) && IsLastId(s.council.db, n)
    requires forall id :: id in s.council.tasks ==> TaskOk(env, s, id)
    ensures var s' := s.(council := Restarted(s.council.db, n), holder := Free, starts := {});
            TablesOk(s') && RowsOk(s') && AllOnward(s, s')
  {
    RestartAgrees(env, s, n);
  }

  lemma RestartKeeps(env: Env, s: Side, n: nat)
    requires Inv(env, s) && IsLastId(s.council.db, n)
    ensures Inv(env, s.(council := Restarted(s.council.db, n), holder := Free, starts := {}))
    ensures AllOnward(s, s.(council := Restarted(s.council.db, n), holder := Free, starts := {}))
  {
    var s' := s.(council := Restarted(s.council.db, n), holder := Free, starts := {});
    forall id | id in s'.council.tasks ensures TaskOk(env, s', id) {
      RestartKeepsTask(env, s, n, id);
    }
    forall m | 0 <= m < |s'.origins| ensures OriginOk(env, s', m) {
      assert OriginOk(env, s, m);
      RestartKeepsOrigin(env, s, n, m);
    }
    RestartKeepsRest(env, s, n);
  }

  // ---------------------------------------------------------- every step

  lemma StepKeeps(env: Env, replies: map<nat, Response>, s: Side, st: Step)
    requires Inv(env, s) && RepliesHaveIds(replies)
    ensures Inv(env, Do(env, replies, s, st))
    ensures AllOnward(s, Do(env, replies, s, st))
  {
    if SavesTask(env, replies, s, st) {
      assert TaskOk(env, s, SavedTask(env, replies, s, st).value.0);
      SaveStepKeeps(env, replies, s, st);
      SaveStepOnwardAll(env, replies, s, st);
    } else if Do(env, replies, s, st) == s {
    } else if st.Restart? {
      RestartKeeps(env, s, st.nextId);
    } else if s.holder.Free? {
      LockStepKeeps(env, replies, s, st);
    } else {
      HeldStepKeeps(env, replies, s, st);
    }
  }

  lemma HeldStepIs(env: Env, replies: map<nat, Response>, s: Side, st: Step)
    requires !s.holder.Free? && !st.Restart? && !st.ApproveSecond? && !st.Send?
    requires !SavesTask(env, replies, s, st) && Do(env, replies, s, st) != s
    ensures Do(env, replies, s, st) == s.(holder := Free)
  {
  }

  lemma HeldStepKeeps(env: Env, replies: map<nat, Response>, s: Side, st: Step)
    requires Inv(env, s) && !s.holder.Free? && !st.Restart?
    requires !SavesTask(env, replies, s, st) && Do(env, replies, s, st) != s
    ensures Inv(env, Do(env, replies, s, st)) && AllOnward(s, Do(env, replies, s, st))
  {
    match st
    case ApproveSecond(_) => ApproveSecondKeeps(env, replies, s, st);
    case Send => SendKeeps(env, replies, s);
    case _ =>
      HeldStepIs(env, replies, s, st);
      HolderChange(env, s, Free);
  }

  lemma LockStepKeeps(env: Env, replies: map<nat, Response>, s: Side, st: Step)
    requires Inv(env, s) && s.holder.Free? && !st.Restart?
    requires !SavesTask(env, replies, s, st) && Do(env, replies, s, st) != s
    ensures Inv(env, Do(env, replies, s, st)) && AllOnward(s, Do(env, replies, s, st))
  {
    match st
    case CreateWorkspace => WorkspaceKeeps(env, s);
    case Create(ws, acceptance) => CreateKeeps(env, s, ws, acceptance);
    case ApproveFirst(_, _, _) => ApproveFirstKeeps(env, replies, s, st);
    case ExecuteFirst(id) =>
      if s.council.tasks[id].state.Executing? {
        ResumeKeeps(env, replies, s, id);
      } else {
        ExecuteKeeps(env, replies, s, id);
      }
    case _ => LateDeliberation(env, replies, s, st);
  }

  lemma LateDeliberationForgets(env: Env, replies: map<nat, Response>, s: Side, st: Step)
    requires s.holder.Free? && (st.DeliberationDone? || st.DeliberationFailed?) && StartsOk(s)
    requires !SavesTask(env, replies, s, st) && Do(env, replies, s, st) != s
    ensures Do(env, replies, s, st) == s.(starts := s.starts - {st.id})
  {
  }

  /** A deliberation that ends after its task was stopped only forgets itself. */
  lemma LateDeliberation(env: Env, replies: map<nat, Response>, s: Side, st: Step)
    requires Inv(env, s) && s.holder.Free? && (st.DeliberationDone? || st.DeliberationFailed?)
    requires !SavesTask(env, replies, s, st) && Do(env, replies, s, st) != s
    ensures Inv(env, Do(env, replies, s, st)) && AllOnward(s, Do(env, replies, s, st))
  {
    LateDeliberationForgets(env, replies, s, st);
    var s' := s.(starts := s.starts - {st.id});
    SameTasks(env, s, s');
    Unmoved(s, s');
  }

  /** Rows are never deleted or rewritten, and never un-consumed or made valid again. */
  predicate RowsStay(rows: Rows, rows': Rows) {
    forall a :: a in rows ==>
      && a in rows' && rows'[a].runId == rows[a].runId
      && rows'[a].planVersion == rows[a].planVersion && rows'[a].snapshotHash == rows[a].snapshotHash
      && (rows[a].consumed ==> rows'[a].consumed) && (rows[a].invalidated ==> rows'[a].invalidated)
  }

  lemma StepKeepsRows(env: Env, replies: map<nat, Response>, s: Side, st: Step)
    ensures RowsStay(s.council.db.approvals, Do(env, replies, s, st).council.db.approvals)
  {
  }
}
