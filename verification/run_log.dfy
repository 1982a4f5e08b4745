/** The table of run states and the moves it allows. */
module RunState {
  import opened Results

  datatype State =
    | Draft | Analyzing | Proposing | Reviewing | Judging | RedTeam | AwaitingApproval
    | Executing | Verifying | Replanning | Succeeded | Failed | Cancelled
    | Other(name: string)

  const LEGAL: map<State, set<State>> := map[
    Draft := {Analyzing, Cancelled},
    Analyzing := {Proposing, Failed, Cancelled},
    Proposing := {Reviewing, Failed, Cancelled},
    Reviewing := {Judging, Failed, Cancelled},
    Judging := {RedTeam, Failed, Cancelled},
    RedTeam := {Judging, AwaitingApproval, Failed, Cancelled},
    AwaitingApproval := {Executing, Cancelled},
    Executing := {Verifying, Failed, Cancelled},
    Verifying := {Succeeded, Replanning, Failed, Cancelled},
    Replanning := {Reviewing, Failed, Cancelled}
  ]

  predicate CanTransition(from: State, to: State) { from in LEGAL && to in LEGAL[from] }

  predicate Walk(states: seq<State>) {
    forall k :: 0 < k < |states| ==> CanTransition(states[k - 1], states[k])
  }

  /** Which states can be entered from which. */
  lemma OnlyFrom(from: State, to: State)
    requires CanTransition(from, to)
    ensures to == Executing ==> from == AwaitingApproval
    ensures to == Verifying ==> from == Executing
    ensures to == Succeeded ==> from == Verifying
    ensures to == AwaitingApproval ==> from == RedTeam
    ensures !from.Succeeded? && !from.Failed? && !from.Cancelled? && !from.Other? && !to.Draft? && !to.Other?
  {
  }

  /** The stages of a run, in order; None for the states outside. */
  function Stage(s: State): Option<nat> {
    match s
    case Draft => Some(0)
    case Analyzing => Some(1)
    case Proposing => Some(2)
    case Reviewing => Some(3)
    case Judging => Some(4)
    case RedTeam => Some(5)
    case AwaitingApproval => Some(6)
    case Executing => Some(7)
    case Verifying => Some(8)
    case Succeeded => Some(9)
    case _ => None
  }

  predicate Ended(s: State) { s.Succeeded? || s.Failed? || s.Cancelled? || s.Other? }

  /** A move goes to the next stage, back to judging after the red team, or round to the
      reviews through replanning; anything not ended may be cancelled, and fails unless it
      waits for a person: in DRAFT and for the approval. */
  lemma MovesAre(from: State, to: State)
    ensures CanTransition(from, to) <==>
            || (Stage(from).Some? && Stage(to) == Some(Stage(from).value + 1))
            || (from.RedTeam? && to.Judging?)
            || (from.Verifying? && to.Replanning?) || (from.Replanning? && to.Reviewing?)
            || (to.Cancelled? && !Ended(from))
            || (to.Failed? && !Ended(from) && !from.Draft? && !from.AwaitingApproval?)
  {
    assert from in LEGAL <==> !Ended(from);
  }

  /** In a walk from DRAFT every EXECUTING directly follows its own AWAITING_APPROVAL,
      every SUCCEEDED ends a stretch AWAITING_APPROVAL, EXECUTING, VERIFYING, and a
      terminal state is the last. */
  lemma ApprovalPrecedesExecution(states: seq<State>, k: nat)
    requires states != [] && states[0] == Draft && Walk(states) && k < |states|
    ensures states[k] == Executing ==> k >= 1 && states[k - 1] == AwaitingApproval
    ensures states[k] == Succeeded ==> k >= 3 && states[k - 3..k] == [AwaitingApproval, Executing, Verifying]
    ensures states[k].Succeeded? || states[k].Failed? || states[k].Cancelled? ==> k == |states| - 1
  {
    if k + 1 < |states| {
      OnlyFrom(states[k], states[k + 1]);
    }
    if k >= 1 {
      OnlyFrom(states[k - 1], states[k]);
      if k >= 2 {
        OnlyFrom(states[k - 2], states[k - 1]);
        if k >= 3 {
          OnlyFrom(states[k - 3], states[k - 2]);
        }
      }
    }
  }
}

/** Runs with a version, and one audit row for every version. */
module RunLog {
  import opened Results
  import opened RunState
  import opened Ordered

  datatype RunRow = RunRow(state: State, version: nat)

  datatype AuditRow = AuditRow(kind: string, actor: string, detail: string)

  /** Audit rows under their unique index: run and sequence. */
  datatype Tables = Tables(runs: map<string, RunRow>, audits: map<(string, int), AuditRow>)

  datatype Error = Constraint | NotFound | IllegalTransition | ConcurrentTransition

  datatype Event = Event(sequence: int, kind: string, actor: string, detail: string)

  // ------------------------------------------------------- transactions

  function Insert(t: Tables, id: string, state: State): (Tables, Option<Error>) {
    if id in t.runs || (id, 1) in t.audits then (t, Some(Constraint))
    else
      var created := AuditRow("run.created", "system", "run created");
      (Tables(t.runs[id := RunRow(state, 1)], t.audits[(id, 1) := created]), None)
  }

  /** The read at the start of Transition, and the check of the move. */
  function Read(t: Tables, id: string, next: State): Result<RunRow, Error> {
    if id !in t.runs then Err(NotFound)
    else if !CanTransition(t.runs[id].state, next) then Err(IllegalTransition)
    else Ok(t.runs[id])
  }

  /** The version-checked update and the audit row, or nothing. */
  function Write(t: Tables, id: string, seen: RunRow, next: State, actor: string, detail: string)
    : (Tables, Option<Error>)
  {
    var version := seen.version + 1;
    if id !in t.runs || t.runs[id].version != seen.version then (t, Some(ConcurrentTransition))
    else if (id, version) in t.audits then (t, Some(Constraint))
    else
      var moved := AuditRow("state.transition", actor, detail);
      (Tables(t.runs[id := RunRow(next, version)], t.audits[(id, version) := moved]), None)
  }

  function Sequences(t: Tables, id: string): set<int> { set key | key in t.audits && key.0 == id :: key.1 }

  // --------------------------------------------------------------- the class

  class RunDatabase {
    var runs: map<string, RunRow>
    var audits: map<(string, int), AuditRow>

    constructor ()
      ensures State() == Tables(map[], map[])
    {
      runs, audits := map[], map[];
    }

    function State(): Tables
      reads this
    {
      Tables(runs, audits)
    }
  }

  class RunRepository {
    const db: RunDatabase

    constructor (db: RunDatabase)
      ensures this.db == db
    {
      this.db := db;
    }

    method Create(id: string, state: State) returns (err: Option<Error>)
      modifies db
      ensures (db.State(), err) == Insert(old(db.State()), id, state)
    {
      if id in db.runs {
        return Some(Constraint);
      }
      var runs := db.runs;
      db.runs := db.runs[id := RunRow(state, 1)];
      if (id, 1) in db.audits {
        db.runs := runs;
        return Some(Constraint);
      }
      db.audits := db.audits[(id, 1) := AuditRow("run.created", "system", "run created")];
      return None;
    }

    /** `between` is what the tables are when the update runs: others may have written
        since the read. */
    method Transition(id: string, next: State, actor: string, detail: string, between: Tables)
      returns (err: Option<Error>)
      modifies db
      ensures var read := Read(old(db.State()), id, next);
              && (read.Err? ==> err == Some(read.error) && db.State() == old(db.State()))
              && (read.Ok? ==> (db.State(), err) == Write(between, id, read.value, next, actor, detail))
    {
      if id !in db.runs {
        return Some(NotFound);
      }
      var current := db.runs[id];
      if !CanTransition(current.state, next) {
        return Some(IllegalTransition);
      }
      var nextVersion := current.version + 1;
      db.runs, db.audits := between.runs, between.audits;
      if id !in db.runs || db.runs[id].version != current.version {
        return Some(ConcurrentTransition);
      }
      db.runs := db.runs[id := RunRow(next, nextVersion)];
      if (id, nextVersion) in db.audits {
        db.runs := between.runs;
        return Some(Constraint);
      }
      db.audits := db.audits[(id, nextVersion) := AuditRow("state.transition", actor, detail)];
      return None;
    }

    /** The run, and its audit rows in sequence order. */
    method Load(id: string) returns (r: Result<(RunRow, seq<Event>), Error>)
      ensures id !in db.runs ==> r == Err(NotFound)
      ensures id in db.runs ==>
                && r.Ok? && r.value.0 == db.runs[id]
                && var order := Sorted(Sequences(db.State(), id));
                   |r.value.1| == |order|
                   && forall k :: 0 <= k < |order| ==>
                        (id, order[k]) in db.audits
                        && var a := db.audits[(id, order[k])];
                           r.value.1[k] == Event(order[k], a.kind, a.actor, a.detail)
    {
      if id !in db.runs {
        return Err(NotFound);
      }
      var order := Sorted(Sequences(db.State(), id));
      var events: seq<Event> := [];
      for i := 0 to |order|
        invariant |events| == i
        invariant forall k :: 0 <= k < i ==>
                    (id, order[k]) in db.audits
                    && var a := db.audits[(id, order[k])];
                       events[k] == Event(order[k], a.kind, a.actor, a.detail)
      {
        assert order[i] in order;
        var item := db.audits[(id, order[i])];
        events := events + [Event(order[i], item.kind, item.actor, item.detail)];
      }
      return Ok((db.runs[id], events));
    }
  }

  // ------------------------------------------------- concurrent writers

  /** A writer between its read and its update. */
  datatype Writer = Writer(id: string, seen: RunRow, next: State, actor: string, detail: string)

  /** `history` is the states a run has had, one per version; no table stores it. */
  datatype World = World(tables: Tables, writers: map<nat, Writer>, history: map<string, seq<State>>)

  datatype Step =
    | CreateRun(id: string, state: State)
    | BeginMove(w: nat, id: string, next: State, actor: string, detail: string)
    | EndMove(w: nat)
    | Abort(w: nat)

  const EMPTY := World(Tables(map[], map[]), map[], map[])

  function Do(w: World, st: Step): World {
    match st
    case CreateRun(id, state) =>
      var (t, err) := Insert(w.tables, id, state);
      if err.None? then w.(tables := t, history := w.history[id := [state]]) else w
    case BeginMove(k, id, next, actor, detail) =>
      var seen := Read(w.tables, id, next);
      if k in w.writers || seen.Err? then w
      else w.(writers := w.writers[k := Writer(id, seen.value, next, actor, detail)])
    case EndMove(k) =>
      if k !in w.writers then w
      else
        var m := w.writers[k];
        var (t, err) := Write(w.tables, m.id, m.seen, m.next, m.actor, m.detail);
        var w' := w.(tables := t, writers := w.writers - {k});
        if err.None? && m.id in w.history then w'.(history := w.history[m.id := w.history[m.id] + [m.next]]) else w'
    case Abort(k) => w.(writers := w.writers - {k})
  }

  function Run(w: World, steps: seq<Step>): World {
    if steps == [] then w else Do(Run(w, steps[..|steps| - 1]), steps[|steps| - 1])
  }

  /** One run: its version counts its audit rows and the states it has had. */
  predicate RunOk(row: RunRow, history: seq<State>) {
    |history| == row.version >= 1 && history[row.version - 1] == row.state && Walk(history)
  }

  /** The run's audit rows are numbered 1 to its version; an unknown run has none. */
  ghost predicate AuditsOk(t: Tables, id: string) {
    forall n :: (id, n) in t.audits <==> id in t.runs && 1 <= n <= t.runs[id].version
  }

  /** What a writer saw was so, and its move was legal then. */
  predicate WriterOk(history: map<string, seq<State>>, m: Writer) {
    && m.id in history && 1 <= m.seen.version <= |history[m.id]|
    && history[m.id][m.seen.version - 1] == m.seen.state && CanTransition(m.seen.state, m.next)
  }

  ghost predicate Inv(w: World) {
    && w.history.Keys == w.tables.runs.Keys
    && (forall id :: id in w.tables.runs ==> RunOk(w.tables.runs[id], w.history[id]))
    && (forall id :: AuditsOk(w.tables, id))
    && (forall k :: k in w.writers ==> WriterOk(w.history, w.writers[k]))
  }

  lemma InsertKeepsAudits(t: Tables, id: string, state: State, other: string)
    requires AuditsOk(t, id) && AuditsOk(t, other)
    ensures AuditsOk(Insert(t, id, state).0, other)
  {
  }

  lemma WriteKeepsAudits(t: Tables, m: Writer, other: string)
    requires AuditsOk(t, other)
    ensures AuditsOk(Write(t, m.id, m.seen, m.next, m.actor, m.detail).0, other)
  {
  }

  lemma WalkGrows(h: seq<State>, next: State)
    requires Walk(h) && (h != [] ==> CanTransition(h[|h| - 1], next))
    ensures Walk(h + [next])
  {
  }

  /** The version check passed: nothing moved since the read, so the move is legal now. */
  lemma WriteKeepsRun(row: RunRow, h: seq<State>, m: Writer)
    requires RunOk(row, h) && row.version == m.seen.version
    requires h[m.seen.version - 1] == m.seen.state && CanTransition(m.seen.state, m.next)
    ensures RunOk(RunRow(m.next, m.seen.version + 1), h + [m.next])
  {
    WalkGrows(h, m.next);
  }

  /** Histories only grow. */
  predicate Grows(h: map<string, seq<State>>, h': map<string, seq<State>>) {
    forall id :: id in h ==> id in h' && h[id] <= h'[id]
  }

  lemma StepExtendsHistories(w: World, st: Step)
    requires w.history.Keys == w.tables.runs.Keys
    ensures Grows(w.history, Do(w, st).history)
  {
  }

  lemma GrowthKeepsWriter(h: map<string, seq<State>>, h': map<string, seq<State>>, m: Writer)
    requires WriterOk(h, m) && Grows(h, h')
    ensures WriterOk(h', m)
  {
    assert h[m.id] <= h'[m.id];
  }

  lemma ReadIsOk(w: World, m: Writer)
    requires w.history.Keys == w.tables.runs.Keys && m.id in w.tables.runs
    requires RunOk(w.tables.runs[m.id], w.history[m.id])
    requires Read(w.tables, m.id, m.next) == Ok(m.seen)
    ensures WriterOk(w.history, m)
  {
  }

  lemma StepKeepsWriters(w: World, st: Step)
    requires Inv(w)
    ensures forall k :: k in Do(w, st).writers ==> WriterOk(Do(w, st).history, Do(w, st).writers[k])
  {
    var w' := Do(w, st);
    StepExtendsHistories(w, st);
    forall k | k in w'.writers ensures WriterOk(w'.history, w'.writers[k]) {
      if k in w.writers {
        GrowthKeepsWriter(w.history, w'.history, w.writers[k]);
      } else {
        ReadIsOk(w, w'.writers[k]);
      }
    }
  }

  lemma StepKeepsRuns(w: World, st: Step)
    requires Inv(w)
    ensures Do(w, st).history.Keys == Do(w, st).tables.runs.Keys
    ensures forall id :: id in Do(w, st).tables.runs ==> RunOk(Do(w, st).tables.runs[id], Do(w, st).history[id])
  {
    if st.EndMove? && st.w in w.writers {
      var m := w.writers[st.w];
      assert WriterOk(w.history, m);
      if w.tables.runs[m.id].version == m.seen.version {
        WriteKeepsRun(w.tables.runs[m.id], w.history[m.id], m);
      }
    }
  }

  lemma StepKeepsAudits(w: World, st: Step, id: string)
    requires Inv(w)
    ensures AuditsOk(Do(w, st).tables, id)
  {
    assert AuditsOk(w.tables, id);
    match st
    case CreateRun(k, state) =>
      assert AuditsOk(w.tables, k);
      InsertKeepsAudits(w.tables, k, state, id);
    case EndMove(k) =>
      if k in w.writers { WriteKeepsAudits(w.tables, w.writers[k], id); }
    case _ =>
  }

  lemma {:induction false} Reachable(steps: seq<Step>)
    ensures Inv(Run(EMPTY, steps))
  {
    if steps != [] {
      Reachable(steps[..|steps| - 1]);
      var w, st := Run(EMPTY, steps[..|steps| - 1]), steps[|steps| - 1];
      StepKeepsWriters(w, st);
      StepKeepsRuns(w, st);
      forall id ensures AuditsOk(Do(w, st).tables, id) {
        StepKeepsAudits(w, st, id);
      }
    }
  }

  lemma SequencesAreRange(t: Tables, id: string)
    requires AuditsOk(t, id) && id in t.runs
    ensures Sequences(t, id) == Range(1, t.runs[id].version + 1)
  {
    forall n ensures n in Sequences(t, id) <==> n in Range(1, t.runs[id].version + 1) {
      assert n in Sequences(t, id) <==> (id, n) in t.audits;
    }
  }

  /** With any number of writers interleaving reads and version-checked updates: a run's
      audit rows, in order, are numbered exactly 1 to its version, and the states it has
      had, one per version, are a walk in the table of moves that ends in its state. */
  lemma HistoryIsLegal(steps: seq<Step>, id: string)
    requires id in Run(EMPTY, steps).tables.runs
    ensures var w := Run(EMPTY, steps);
            var row, order := w.tables.runs[id], Sorted(Sequences(w.tables, id));
            && |order| == row.version && (forall k :: 0 <= k < |order| ==> order[k] == k + 1)
            && id in w.history && RunOk(row, w.history[id])
  {
    Reachable(steps);
    var w := Run(EMPTY, steps);
    assert AuditsOk(w.tables, id);
    SequencesAreRange(w.tables, id);
    SortedRange(1, w.tables.runs[id].version + 1);
  }

  /** In every reachable state a writer's update succeeds exactly when nobody has moved the
      run since it was read, and the row it leaves names the move's author; it never fails
      for its audit row. */
  lemma MovesExactly(steps: seq<Step>, k: nat)
    requires k in Run(EMPTY, steps).writers
    ensures var w := Run(EMPTY, steps);
            var t, m := w.tables, w.writers[k];
            var (t', err) := Write(t, m.id, m.seen, m.next, m.actor, m.detail);
            && m.id in t.runs && m.seen.version <= t.runs[m.id].version
            && (err.None? <==> t.runs[m.id].version == m.seen.version)
            && (err.None? ==>
                  && t'.runs == t.runs[m.id := RunRow(m.next, m.seen.version + 1)]
                  && t'.audits
                     == t.audits[(m.id, m.seen.version + 1) := AuditRow("state.transition", m.actor, m.detail)])
            && (err.Some? ==> err == Some(ConcurrentTransition) && t' == t)
  {
    Reachable(steps);
    var w := Run(EMPTY, steps);
    var m := w.writers[k];
    assert WriterOk(w.history, m) && RunOk(w.tables.runs[m.id], w.history[m.id]) && AuditsOk(w.tables, m.id);
  }

  /** A transition that no other writer comes between succeeds exactly when the run exists and
      the table allows the move. */
  lemma MovesAlone(steps: seq<Step>, id: string, next: State, actor: string, detail: string)
    ensures var t := Run(EMPTY, steps).tables;
            var read := Read(t, id, next);
            (read.Ok? && Write(t, id, read.value, next, actor, detail).1.None?)
            <==> id in t.runs && CanTransition(t.runs[id].state, next)
  {
    Reachable(steps);
    assert AuditsOk(Run(EMPTY, steps).tables, id);
  }

  /** Creating fails exactly for a run that exists; the audit row is always free. */
  lemma CreatesExactly(steps: seq<Step>, id: string, state: State)
    ensures var t := Run(EMPTY, steps).tables;
            var (t', err) := Insert(t, id, state);
            && (err.None? <==> id !in t.runs) && (err.Some? ==> t' == t)
            && (err.None? ==>
                  && t'.runs == t.runs[id := RunRow(state, 1)]
                  && t'.audits == t.audits[(id, 1) := AuditRow("run.created", "system", "run created")])
  {
    Reachable(steps);
    assert AuditsOk(Run(EMPTY, steps).tables, id);
  }

  /** A run created in DRAFT that is SUCCEEDED was approved, executed and verified, in
      that order and directly before; one that is EXECUTING was approved directly before. */
  lemma RunsAreApproved(steps: seq<Step>, id: string)
    requires var w := Run(EMPTY, steps);
             id in w.tables.runs && id in w.history && w.history[id] != [] && w.history[id][0] == Draft
    ensures var w := Run(EMPTY, steps);
            var row, h := w.tables.runs[id], w.history[id];
            && (row.state == Executing ==> |h| >= 2 && h[|h| - 2] == AwaitingApproval)
            && (row.state == Succeeded ==> |h| >= 4 && h[|h| - 4..|h| - 1] == [AwaitingApproval, Executing, Verifying])
  {
    HistoryIsLegal(steps, id);
    var h := Run(EMPTY, steps).history[id];
    ApprovalPrecedesExecution(h, |h| - 1);
  }
}
