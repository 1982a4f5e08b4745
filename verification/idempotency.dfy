/** The runner's idempotency store: claims on request ids and remembered responses,
    in memory and, when there is a database, in a table shared by processes. */
module Idempotency {
  import opened Results
  import opened Wire

  /** A row of the execution table; rows are never deleted. */
  datatype Row = Running | Complete(response: Response)

  type Table = map<string, Row>

  datatype Memory = Memory(running: set<string>, done: map<string, Response>)

  const FRESH := Memory({}, map[])

  /** Begin's outcomes. Completed is success without a claim: the id already has a response. */
  datatype Begun = InProgress | Completed | Claimed

  // ------------------------------------------------- one operation at a time

  function Get(m: Memory, db: Option<Table>, id: string): (Memory, Option<Response>) {
    if id in m.done then (m, Some(m.done[id]))
    else if db.Some? && id in db.value && db.value[id].Complete? then
      (m.(done := m.done[id := db.value[id].response]), Some(db.value[id].response))
    else (m, None)
  }

  datatype Looked = Decided(memory: Memory, begun: Begun) | Absent

  /** The first half of Begin: everything up to the attempt to insert a row. */
  function BeginLook(m: Memory, db: Option<Table>, id: string): Looked {
    if id in m.done then Decided(m, Completed)
    else if id in m.running then Decided(m, InProgress)
    else if db.None? || id !in db.value then Absent
    else
      match db.value[id]
      case Running => Decided(m, InProgress)
      case Complete(r) => if r.requestId == "" then Absent else Decided(m.(done := m.done[id := r]), Completed)
  }

  /** The second half: insert the row, which fails when the id has one. */
  function BeginInsert(m: Memory, db: Option<Table>, id: string): (Memory, Option<Table>, Begun) {
    if db.Some? && id in db.value then (m, db, InProgress)
    else
      (m.(running := m.running + {id}), if db.Some? then Some(db.value[id := Running]) else None, Claimed)
  }

  /** Begin with no other process in between. */
  function Begin(m: Memory, db: Option<Table>, id: string): (Memory, Option<Table>, Begun) {
    match BeginLook(m, db, id)
    case Decided(m', b) => (m', db, b)
    case Absent => BeginInsert(m, db, id)
  }

  function Release(m: Memory, id: string): Memory { m.(running := m.running - {id}) }

  function Finish(m: Memory, db: Option<Table>, id: string, r: Response): (Memory, Option<Table>) {
    (Memory(m.running - {id}, m.done[id := r]),
     if db.Some? then Some(db.value[id := Complete(r)]) else None)
  }

  // --------------------------------------------------------------- the class

  class ExecutionTable {
    var rows: Table

    constructor ()
      ensures rows == map[]
    {
      rows := map[];
    }
  }

  class Store {
    var running: set<string>
    var done: map<string, Response>
    const db: ExecutionTable?

    constructor (db: ExecutionTable?)
      ensures this.db == db && Mem() == FRESH
    {
      this.db := db;
      running, done := {}, map[];
    }

    function Mem(): Memory
      reads this
    {
      Memory(running, done)
    }

    function Tab(): Option<Table>
      reads this, db
    {
      if db == null then None else Some(db.rows)
    }

    method Lookup(id: string) returns (r: Option<Response>)
      modifies this
      ensures Mem() == Get(old(Mem()), old(Tab()), id).0 && r == Get(old(Mem()), old(Tab()), id).1
      ensures Tab() == old(Tab())
    {
      if id in done {
        return Some(done[id]);
      }
      if db != null && id in db.rows && db.rows[id].Complete? {
        done := done[id := db.rows[id].response];
        return Some(done[id]);
      }
      return None;
    }

    /** `others` are the rows other processes commit between the read and the insert. */
    method Claim(id: string, others: Table) returns (b: Begun)
      modifies this, db
      ensures var look := BeginLook(old(Mem()), old(Tab()), id);
              if look.Decided? then Mem() == look.memory && Tab() == old(Tab()) && b == look.begun
              else
                var between := if db == null then None else Some(old(db.rows) + others);
                (Mem(), Tab(), b) == BeginInsert(old(Mem()), between, id)
    {
      if id in done {
        return Completed;
      }
      if id in running {
        return InProgress;
      }
      if db != null {
        if id in db.rows {
          if db.rows[id].Running? {
            return InProgress;
          }
          var v := db.rows[id].response;
          if v.requestId != "" {
            done := done[id := v];
            return Completed;
          }
        }
        db.rows := db.rows + others;
        if id in db.rows {
          return InProgress;
        }
        db.rows := db.rows[id := Running];
      }
      running := running + {id};
      return Claimed;
    }

    method EndClaim(id: string)
      modifies this
      ensures Mem() == Release(old(Mem()), id) && Tab() == old(Tab())
    {
      running := running - {id};
    }

    method Record(id: string, response: Response)
      modifies this, db
      ensures (Mem(), Tab()) == Finish(old(Mem()), old(Tab()), id, response)
    {
      running := running - {id};
      done := done[id := response];
      if db != null {
        db.rows := db.rows[id := Complete(response)];
      }
    }
  }

  // ------------------------------------- any number of stores, interleaved

  /** A process's store: its memory, and the id whose Begin is between its two halves. */
  datatype Instance = Instance(memory: Memory, beginning: Option<string>)

  datatype Claim = Claim(instance: nat, id: string)

  /** All processes, the shared table if there is one, the claims not yet ended by their
      holders, and every claim ever installed. */
  datatype World = World(instances: map<nat, Instance>, db: Option<Table>, live: map<nat, Claim>, claims: seq<Claim>)

  datatype Step =
    | Boot(i: nat)
    | Crash(i: nat)
    | GetCall(i: nat, id: string)
    | BeginFirst(i: nat, id: string)
    | BeginSecond(i: nat, holder: nat)
    | ReleaseCall(holder: nat)
    | CompleteCall(i: nat, id: string, response: Response)

  function Without(live: map<nat, Claim>, c: Claim): map<nat, Claim> {
    map h | h in live && live[h] != c :: live[h]
  }

  function WithoutInstance(live: map<nat, Claim>, i: nat): map<nat, Claim> {
    map h | h in live && live[h].instance != i :: live[h]
  }

  /** The process is up and no Begin of its holds the lock. */
  predicate Free(w: World, i: nat) { i in w.instances && w.instances[i].beginning.None? }

  function SetMemory(w: World, i: nat, m: Memory): World
    requires i in w.instances
  {
    w.(instances := w.instances[i := Instance(m, None)])
  }

  /** A step that is not possible changes nothing. */
  function Do(w: World, s: Step): World {
    match s
    case Boot(i) =>
      if i in w.instances then w else w.(instances := w.instances[i := Instance(FRESH, None)])
    case Crash(i) =>
      w.(instances := w.instances - {i}, live := WithoutInstance(w.live, i))
    case GetCall(i, id) =>
      if !Free(w, i) then w else SetMemory(w, i, Get(w.instances[i].memory, w.db, id).0)
    case BeginFirst(i, id) =>
      if !Free(w, i) then w
      else
        var m := w.instances[i].memory;
        (match BeginLook(m, w.db, id)
         case Decided(m', _) => SetMemory(w, i, m')
         case Absent => w.(instances := w.instances[i := Instance(m, Some(id))]))
    case BeginSecond(i, holder) =>
      if i !in w.instances || w.instances[i].beginning.None? || holder in w.live then w
      else
        var m, id := w.instances[i].memory, w.instances[i].beginning.value;
        var (m', db', b) := BeginInsert(m, w.db, id);
        var w' := SetMemory(w, i, m').(db := db');
        if b.Claimed? then
          w'.(live := w.live[holder := Claim(i, id)], claims := w.claims + [Claim(i, id)])
        else w'
    case ReleaseCall(holder) =>
      if holder !in w.live || !Free(w, w.live[holder].instance) then w
      else
        var c := w.live[holder];
        SetMemory(w, c.instance, Release(w.instances[c.instance].memory, c.id)).(live := w.live - {holder})
    case CompleteCall(i, id, response) =>
      if !Free(w, i) then w
      else
        var (m', db') := Finish(w.instances[i].memory, w.db, id, response);
        SetMemory(w, i, m').(db := db', live := Without(w.live, Claim(i, id)))
  }

  function Run(w: World, steps: seq<Step>): World {
    if steps == [] then w else Do(Run(w, steps[..|steps| - 1]), steps[|steps| - 1])
  }

  function Start(db: Option<Table>): World { World(map[], db, map[], []) }

  function ClaimsOn(claims: seq<Claim>, id: string): nat {
    if claims == [] then 0
    else ClaimsOn(claims[..|claims| - 1], id) + if claims[|claims| - 1].id == id then 1 else 0
  }

  ghost predicate OneClaimPerRow(w: World) {
    && w.db.Some?
    && forall id :: ClaimsOn(w.claims, id) <= if id in w.db.value then 1 else 0
  }

  lemma ClaimsOnAppend(claims: seq<Claim>, c: Claim, id: string)
    ensures ClaimsOn(claims + [c], id) == ClaimsOn(claims, id) + if c.id == id then 1 else 0
  {
    assert (claims + [c])[..|claims|] == claims;
  }

  lemma StepKeepsOneClaim(w: World, s: Step)
    requires OneClaimPerRow(w)
    ensures OneClaimPerRow(Do(w, s))
    ensures forall id :: id in w.db.value ==> id in Do(w, s).db.value
  {
    var w' := Do(w, s);
    if s.BeginSecond? && w'.claims != w.claims {
      forall id ensures ClaimsOn(w'.claims, id) <= if id in w'.db.value then 1 else 0 {
        ClaimsOnAppend(w.claims, w'.claims[|w.claims|], id);
      }
    }
  }

  /** With a shared table, at most one Begin per id ever installs a claim: over any
      number of processes, any interleaving of their operations, and any crashes. */
  lemma {:induction false} AtMostOneClaimEver(rows: Table, steps: seq<Step>, id: string)
    ensures OneClaimPerRow(Run(Start(Some(rows)), steps))
    ensures ClaimsOn(Run(Start(Some(rows)), steps).claims, id) <= 1
  {
    if steps != [] {
      AtMostOneClaimEver(rows, steps[..|steps| - 1], id);
      StepKeepsOneClaim(Run(Start(Some(rows)), steps[..|steps| - 1]), steps[|steps| - 1]);
    }
  }

  /** Without a table: every live claim is in its process's running set, each id has one
      holder, and an id with a response has no live claim. */
  ghost predicate ClaimsAreExclusive(w: World) {
    && w.db.None?
    && (forall h :: h in w.live ==> w.live[h].instance in w.instances)
    && (forall h :: h in w.live ==> w.live[h].id in w.instances[w.live[h].instance].memory.running)
    && (forall h, k :: h in w.live && k in w.live && w.live[h] == w.live[k] ==> h == k)
    && (forall h :: h in w.live ==> w.live[h].id !in w.instances[w.live[h].instance].memory.done)
    && (forall i :: i in w.instances && w.instances[i].beginning.Some? ==>
          && w.instances[i].beginning.value !in w.instances[i].memory.running
          && w.instances[i].beginning.value !in w.instances[i].memory.done)
  }

  lemma BeginSecondKeepsExclusive(w: World, i: nat, holder: nat)
    requires ClaimsAreExclusive(w)
    ensures ClaimsAreExclusive(Do(w, BeginSecond(i, holder)))
  {
  }

  lemma ReleaseKeepsExclusive(w: World, holder: nat)
    requires ClaimsAreExclusive(w)
    ensures ClaimsAreExclusive(Do(w, ReleaseCall(holder)))
  {
  }

  lemma ProcessStepKeepsExclusive(w: World, s: Step)
    requires ClaimsAreExclusive(w) && (s.Boot? || s.Crash?)
    ensures ClaimsAreExclusive(Do(w, s))
  {
  }

  /** Without a table, looking an id up changes nothing, and beginning it remembers no response. */
  lemma LooksChangeNothing(m: Memory, id: string)
    ensures Get(m, None, id).0 == m
    ensures BeginLook(m, None, id).Decided? ==> BeginLook(m, None, id).memory == m
  {
  }

  lemma GetKeepsExclusive(w: World, i: nat, id: string)
    requires ClaimsAreExclusive(w)
    ensures ClaimsAreExclusive(Do(w, GetCall(i, id)))
  {
    if Free(w, i) {
      LooksChangeNothing(w.instances[i].memory, id);
      assert w.instances[i] == Instance(w.instances[i].memory, None);
      assert Do(w, GetCall(i, id)).instances == w.instances;
    }
  }

  lemma BeginFirstKeepsExclusive(w: World, i: nat, id: string)
    requires ClaimsAreExclusive(w)
    ensures ClaimsAreExclusive(Do(w, BeginFirst(i, id)))
  {
    if Free(w, i) {
      LooksChangeNothing(w.instances[i].memory, id);
    }
  }

  lemma CompleteKeepsExclusive(w: World, i: nat, id: string, response: Response)
    requires ClaimsAreExclusive(w)
    ensures ClaimsAreExclusive(Do(w, CompleteCall(i, id, response)))
  {
  }

  lemma StepKeepsExclusive(w: World, s: Step)
    requires ClaimsAreExclusive(w)
    ensures ClaimsAreExclusive(Do(w, s))
  {
    match s
    case BeginSecond(i, holder) => BeginSecondKeepsExclusive(w, i, holder);
    case ReleaseCall(holder) => ReleaseKeepsExclusive(w, holder);
    case GetCall(i, id) => GetKeepsExclusive(w, i, id);
    case BeginFirst(i, id) => BeginFirstKeepsExclusive(w, i, id);
    case CompleteCall(i, id, response) => CompleteKeepsExclusive(w, i, id, response);
    case _ => ProcessStepKeepsExclusive(w, s);
  }

  /** Some holder has the claim of this process on this id. */
  predicate HasHolder(live: map<nat, Claim>, i: nat, id: string) { exists h :: h in live && live[h] == Claim(i, id) }

  predicate RunningIsClaimed(w: World) {
    forall i, id | i in w.instances && id in w.instances[i].memory.running :: HasHolder(w.live, i, id)
  }

  lemma StillHeld(w: World, w': World, i: nat, id: string)
    requires HasHolder(w.live, i, id)
    requires forall h :: h in w.live && w.live[h] == Claim(i, id) ==> h in w'.live && w'.live[h] == w.live[h]
    ensures HasHolder(w'.live, i, id)
  {
    var h :| h in w.live && w.live[h] == Claim(i, id);
    assert w'.live[h] == Claim(i, id);
  }

  lemma StepKeepsRunningClaimed(w: World, s: Step)
    requires w.db.None? && RunningIsClaimed(w)
    ensures RunningIsClaimed(Do(w, s))
  {
    var w' := Do(w, s);
    forall i, id | i in w'.instances && id in w'.instances[i].memory.running
      ensures HasHolder(w'.live, i, id)
    {
      if i in w.instances && id in w.instances[i].memory.running {
        StillHeld(w, w', i, id);
      } else {
        assert s.BeginSecond? && w'.live[s.holder] == Claim(i, id);
      }
    }
  }

  /** A response once held stays, and no claim is installed on its id. */
  lemma StepKeepsDone(w: World, i: nat, id: string, s: Step)
    requires ClaimsAreExclusive(w) && i in w.instances && id in w.instances[i].memory.done && s != Crash(i)
    ensures i in Do(w, s).instances && id in Do(w, s).instances[i].memory.done
    ensures multiset(Do(w, s).claims)[Claim(i, id)] == multiset(w.claims)[Claim(i, id)]
  {
  }

  /** In memory-only mode at most one claim per id is live at a time, and the running set
      is exactly the ids of the live claims. */
  lemma {:induction false} OneLiveClaimInMemory(steps: seq<Step>)
    ensures ClaimsAreExclusive(Run(Start(None), steps)) && RunningIsClaimed(Run(Start(None), steps))
  {
    if steps != [] {
      OneLiveClaimInMemory(steps[..|steps| - 1]);
      StepKeepsExclusive(Run(Start(None), steps[..|steps| - 1]), steps[|steps| - 1]);
      StepKeepsRunningClaimed(Run(Start(None), steps[..|steps| - 1]), steps[|steps| - 1]);
    }
  }

  /** A process that holds a response for an id keeps it, and installs no further claim on it. */
  lemma {:induction false} NoClaimAfterComplete(w: World, i: nat, id: string, steps: seq<Step>)
    requires ClaimsAreExclusive(w) && i in w.instances && id in w.instances[i].memory.done
    requires forall s :: s in steps ==> s != Crash(i)
    ensures ClaimsAreExclusive(Run(w, steps))
    ensures i in Run(w, steps).instances && id in Run(w, steps).instances[i].memory.done
    ensures multiset(Run(w, steps).claims)[Claim(i, id)] == multiset(w.claims)[Claim(i, id)]
  {
    if steps != [] {
      var init, last := steps[..|steps| - 1], steps[|steps| - 1];
      assert last in steps && forall s :: s in init ==> s in steps;
      NoClaimAfterComplete(w, i, id, init);
      StepKeepsExclusive(Run(w, init), last);
      StepKeepsDone(Run(w, init), i, id, last);
    }
  }
}
