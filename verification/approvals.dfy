/** The council's database and the approval rows in it. Tasks and workspaces are
    known by the number in their ids, "task-N" and "workspace-N". */
module Approvals {
  import opened Results
  import opened Plans
  import opened Wire

  datatype State = Draft | Analyzing | AwaitingApproval | Executing | Verifying | Succeeded | Failed | Cancelled

  predicate Terminal(s: State) { s.Succeeded? || s.Failed? || s.Cancelled? }

  /** A task, in memory and as a row. */
  datatype Task = Task(
    state: State,
    workspace: nat,
    acceptance: seq<string>,
    planVersion: int,
    approvalHash: string,
    approved: bool,
    plan: Plan,
    verification: Option<Response>)

  datatype ApprovalRow = ApprovalRow(
    runId: nat,
    planVersion: int,
    snapshotHash: string,
    decision: string,
    invalidated: bool,
    consumed: bool)

  type Rows = map<int, ApprovalRow>

  datatype Tables = Tables(tasks: map<nat, Task>, approvals: Rows, workspaces: set<nat>)

  // ------------------------------------------------------------- statements

  /** Every not yet invalidated row of a run is invalidated, consumed or not. */
  function Invalidate(rows: Rows, run: nat): Rows {
    map id | id in rows :: if rows[id].runId == run then rows[id].(invalidated := true) else rows[id]
  }

  predicate Active(a: ApprovalRow, run: nat, version: int, hash: string) {
    && a.runId == run && a.planVersion == version && a.snapshotHash == hash
    && a.decision == "approved" && !a.invalidated && !a.consumed
  }

  function ActiveIds(rows: Rows, run: nat, version: int, hash: string): set<int> {
    set id | id in rows && Active(rows[id], run, version, hash)
  }

  function ConsumeRows(rows: Rows, ids: set<int>): Rows {
    map id | id in rows :: if id in ids then rows[id].(consumed := true) else rows[id]
  }

  /** There is an active row, and no other. */
  predicate OneActive(rows: Rows, run: nat, version: int, hash: string) {
    exists a :: a in rows && Active(rows[a], run, version, hash)
             && forall b :: b in rows && Active(rows[b], run, version, hash) ==> b == a
  }

  lemma OneActiveId(rows: Rows, run: nat, version: int, hash: string)
    ensures |ActiveIds(rows, run, version, hash)| == 1 <==> OneActive(rows, run, version, hash)
  {
    var ids := ActiveIds(rows, run, version, hash);
    if |ids| == 1 {
      var a := OnlyElement(ids);
      assert a in ids && forall b :: b in rows && Active(rows[b], run, version, hash) ==> b in ids;
    }
    if OneActive(rows, run, version, hash) {
      var a :| a in rows && Active(rows[a], run, version, hash)
            && forall b :: b in rows && Active(rows[b], run, version, hash) ==> b == a;
      assert ids == {a};
    }
  }

  predicate Startable(tasks: map<nat, Task>, run: nat, version: int, hash: string) {
    && run in tasks && tasks[run].state.AwaitingApproval? && tasks[run].planVersion == version
    && tasks[run].approvalHash == hash && tasks[run].approved
  }

  /** The one-transaction form: exactly one active row is consumed and its task starts
      executing, or nothing changes. */
  function ConsumeAndStart(db: Tables, run: nat, version: int, hash: string): (Tables, bool) {
    var ids := ActiveIds(db.approvals, run, version, hash);
    if |ids| == 1 && Startable(db.tasks, run, version, hash) then
      (db.(approvals := ConsumeRows(db.approvals, ids),
           tasks := db.tasks[run := db.tasks[run].(state := Executing)]), true)
    else (db, false)
  }

  lemma OnlyElement<T>(s: set<T>) returns (x: T)
    requires |s| == 1
    ensures s == {x}
  {
    x :| x in s;
    assert |s - {x}| == 0;
  }

  /** The answer is true exactly when one row is active, and no other, and the task's row
      waits, approved, with this version and hash. Then that approval row is consumed and
      exactly this task goes from AWAITING_APPROVAL to EXECUTING; otherwise neither table
      changes. */
  lemma ConsumeAndStartIsAtomic(db: Tables, run: nat, version: int, hash: string)
    ensures var (db', started) := ConsumeAndStart(db, run, version, hash);
            && (started <==> OneActive(db.approvals, run, version, hash)
                             && run in db.tasks
                             && var t := db.tasks[run];
                                && t.state.AwaitingApproval? && t.approved
                                && t.planVersion == version && t.approvalHash == hash)
            && (!started ==> db' == db)
            && (started ==>
                  && (exists id :: id in db.approvals && Active(db.approvals[id], run, version, hash)
                                   && db'.approvals == db.approvals[id := db.approvals[id].(consumed := true)])
                  && db'.tasks == db.tasks[run := db.tasks[run].(state := Executing)]
                  && db'.workspaces == db.workspaces)
  {
    var ids := ActiveIds(db.approvals, run, version, hash);
    OneActiveId(db.approvals, run, version, hash);
    if |ids| == 1 {
      var id := OnlyElement(ids);
      assert ConsumeRows(db.approvals, ids) == db.approvals[id := db.approvals[id].(consumed := true)];
    }
  }

  /** Consuming uses up what was active: asked again, there is nothing. */
  lemma ConsumingUsesUp(rows: Rows, run: nat, version: int, hash: string)
    ensures ActiveIds(ConsumeRows(rows, ActiveIds(rows, run, version, hash)), run, version, hash) == {}
  {
    var rows' := ConsumeRows(rows, ActiveIds(rows, run, version, hash));
    forall a | a in rows' ensures !Active(rows'[a], run, version, hash) {
      assert rows'[a].consumed == (rows[a].consumed || Active(rows[a], run, version, hash));
    }
  }

  // --------------------------------------------------------------- the class

  class Database {
    var tasks: map<nat, Task>
    var approvals: Rows
    var workspaces: set<nat>

    constructor ()
      ensures State() == Tables(map[], map[], {})
    {
      tasks, approvals, workspaces := map[], map[], {};
    }

    function State(): Tables
      reads this
    {
      Tables(tasks, approvals, workspaces)
    }
  }

  class ApprovalRepository {
    const db: Database

    constructor (db: Database)
      ensures this.db == db
    {
      this.db := db;
    }

    /** Inserting a row whose id exists is a constraint error. */
    method Save(id: int, row: ApprovalRow) returns (ok: bool)
      modifies db
      ensures ok == (id !in old(db.approvals))
      ensures db.State() == if ok then old(db.State()).(approvals := old(db.approvals)[id := row]) else old(db.State())
    {
      if id in db.approvals {
        return false;
      }
      db.approvals := db.approvals[id := row];
      return true;
    }

    /** Every row of the run is invalidated, and nothing else changes. */
    method InvalidateRun(run: nat)
      modifies db
      ensures db.State() == old(db.State()).(approvals := Invalidate(old(db.approvals), run))
      ensures db.approvals.Keys == old(db.approvals).Keys
      ensures forall a :: a in db.approvals ==>
                db.approvals[a] == if old(db.approvals)[a].runId == run then old(db.approvals)[a].(invalidated := true)
                                   else old(db.approvals)[a]
    {
      db.approvals := Invalidate(db.approvals, run);
    }

    /** Without the task: every active row is consumed, and the answer is whether there is
        one and no other. */
    method Consume(run: nat, version: int, hash: string) returns (consumed: bool)
      modifies db
      ensures var ids := ActiveIds(old(db.approvals), run, version, hash);
              && db.State() == old(db.State()).(approvals := ConsumeRows(old(db.approvals), ids))
              && consumed == (|ids| == 1)
      ensures db.approvals.Keys == old(db.approvals).Keys
      ensures forall a :: a in db.approvals ==>
                db.approvals[a] == if Active(old(db.approvals)[a], run, version, hash) then
                                     old(db.approvals)[a].(consumed := true)
                                   else old(db.approvals)[a]
      ensures forall a :: a in db.approvals ==>
                var row := old(db.approvals)[a];
                db.approvals[a].consumed
                <==> row.consumed || (row.runId == run && row.planVersion == version && row.snapshotHash == hash
                                      && row.decision == "approved" && !row.invalidated)
      ensures consumed <==> OneActive(old(db.approvals), run, version, hash)
    {
      var ids := ActiveIds(db.approvals, run, version, hash);
      OneActiveId(db.approvals, run, version, hash);
      db.approvals := ConsumeRows(db.approvals, ids);
      return |ids| == 1;
    }

    /** Two updates in one transaction, rolled back unless each changes exactly one row. */
    method ConsumeAndMarkExecuting(run: nat, version: int, hash: string) returns (started: bool)
      modifies db
      ensures (db.State(), started) == ConsumeAndStart(old(db.State()), run, version, hash)
    {
      var rows, tasks := db.approvals, db.tasks;
      var consumed := Consume(run, version, hash);
      if consumed {
        if Startable(db.tasks, run, version, hash) {
          db.tasks := db.tasks[run := db.tasks[run].(state := Executing)];
          return true;
        }
      }
      db.approvals, db.tasks := rows, tasks;
      return false;
    }
  }
}
