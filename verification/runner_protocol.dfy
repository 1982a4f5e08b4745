/** The runner as a server of approved-plan calls: each call looks up its request id,
    begins, verifies, enters the effect phase and completes, in steps that may
    interleave with other calls and with crashes. Requests may be delivered at any
    time and any number of times. */
module RunnerProtocol {
  import opened Results
  import opened Wire
  import Approval
  import Idempotency

  /** Where a call stands. `claimed` is false when Begin found the id already completed
      and returned success without a claim. */
  datatype Phase = Arrived | Missed | Begun(claimed: bool) | Performing(claimed: bool)

  datatype Call = Call(msg: nat, id: string, phase: Phase)

  /** Entries into the effect phase, and its ends. */
  datatype Event = Entered(id: string, claimed: bool) | Finished(id: string, claimed: bool, response: Response)

  datatype Runner = Runner(
    calls: map<nat, Call>,
    memory: Idempotency.Memory,
    table: Idempotency.Table,
    replies: map<nat, Response>,
    log: seq<Event>)

  const IDLE := Runner(map[], Idempotency.FRESH, map[], map[], [])

  datatype Step =
    | Arrive(call: nat, msg: nat)
    | Look(call: nat)
    | Begin(call: nat)
    | Verify(call: nat)
    | Complete(call: nat, response: Response)
    | Crash

  predicate At(r: Runner, c: nat, phase: Phase) { c in r.calls && r.calls[c].phase == phase }

  function Drop(r: Runner, c: nat): Runner { r.(calls := r.calls - {c}) }

  function Move(r: Runner, c: nat, phase: Phase): Runner
    requires c in r.calls
  {
    r.(calls := r.calls[c := r.calls[c].(phase := phase)])
  }

  /** `reqs` are the requests sent so far. A step that is not possible changes nothing. */
  function Do(digest: Approval.Digest, reqs: seq<Request>, r: Runner, s: Step): Runner {
    match s
    case Arrive(c, m) =>
      if c in r.calls || m >= |reqs| || reqs[m].requestId == "" then r
      else r.(calls := r.calls[c := Call(m, reqs[m].requestId, Arrived)])
    case Look(c) =>
      if !At(r, c, Arrived) then r
      else
        var call := r.calls[c];
        var (memory, got) := Idempotency.Get(r.memory, Some(r.table), call.id);
        if got.Some? then Drop(r, c).(memory := memory, replies := r.replies[call.msg := got.value])
        else Move(r, c, Missed)
    case Begin(c) =>
      if !At(r, c, Missed) then r
      else
        var (memory, table, begun) := Idempotency.Begin(r.memory, Some(r.table), r.calls[c].id);
        if begun.InProgress? then Drop(r, c).(memory := memory)
        else Move(r, c, Begun(begun.Claimed?)).(memory := memory, table := if table.Some? then table.value else r.table)
    case Verify(c) =>
      if c !in r.calls || !r.calls[c].phase.Begun? || r.calls[c].msg >= |reqs| then r
      else
        var call, req := r.calls[c], reqs[r.calls[c].msg];
        var claimed := call.phase.claimed;
        if Approval.Verify(digest, req.approvalHash, req.runId, req.workspaceId, Rebuild(req)) then
          Move(r, c, Performing(claimed)).(log := r.log + [Entered(call.id, claimed)])
        else if claimed then Drop(r, c).(memory := Idempotency.Release(r.memory, call.id))
        else Drop(r, c)
    case Complete(c, response) =>
      if c !in r.calls || !r.calls[c].phase.Performing? then r
      else
        var call := r.calls[c];
        var answer := response.(requestId := call.id);
        var (memory, table) := Idempotency.Finish(r.memory, Some(r.table), call.id, answer);
        Drop(r, c).(memory := memory, table := table.value, replies := r.replies[call.msg := answer],
                    log := r.log + [Finished(call.id, call.phase.claimed, answer)])
    case Crash => r.(calls := map[], memory := Idempotency.FRESH)
  }

  // ------------------------------------------------------------- invariant

  function Entries(r: Runner, id: string, claimed: bool): nat { multiset(r.log)[Entered(id, claimed)] }

  predicate HasFinished(r: Runner, id: string, response: Response) {
    Finished(id, true, response) in r.log || Finished(id, false, response) in r.log
  }

  predicate NeverFinished(r: Runner, id: string) { forall e :: e in r.log && e.Finished? ==> e.id != id }

  /** What the log, the table and the memory say about one id. */
  predicate IdConsistent(r: Runner, id: string) {
    && Entries(r, id, true) <= 1
    && (id !in r.table ==> Entries(r, id, true) == 0)
    && (id !in r.table || r.table[id].Running? ==>
          NeverFinished(r, id) && Entries(r, id, false) == 0 && id !in r.memory.done)
    && (id in r.table && r.table[id].Complete? ==>
          && Entries(r, id, true) == 1
          && r.table[id].response.requestId == id && HasFinished(r, id, r.table[id].response))
    && (id in r.memory.done ==> r.memory.done[id].requestId == id && HasFinished(r, id, r.memory.done[id]))
  }

  predicate Claims(call: Call) { (call.phase.Begun? || call.phase.Performing?) && call.phase.claimed }

  predicate Bypasses(call: Call) { (call.phase.Begun? || call.phase.Performing?) && !call.phase.claimed }

  predicate CallConsistent(r: Runner, reqs: seq<Request>, call: Call) {
    && call.msg < |reqs| && call.id == reqs[call.msg].requestId && call.id != ""
    && (Claims(call) ==> call.id in r.table && r.table[call.id].Running?)
    && (Claims(call) ==> Entries(r, call.id, true) == if call.phase.Begun? then 0 else 1)
    && (Bypasses(call) ==> call.id in r.table && r.table[call.id].Complete?)
  }

  predicate OneClaimant(r: Runner) {
    forall c, d | c in r.calls && d in r.calls && Claims(r.calls[c]) && Claims(r.calls[d]) ::
      r.calls[c].id == r.calls[d].id ==> c == d
  }

  predicate ByClaim(e: Event) { e.Finished? && e.claimed }

  predicate FinishedOnce(r: Runner) {
    forall i, j | 0 <= i < |r.log| && 0 <= j < |r.log| && ByClaim(r.log[i]) && ByClaim(r.log[j]) ::
      r.log[i].id == r.log[j].id ==> i == j
  }

  predicate RepliesConsistent(r: Runner, reqs: seq<Request>) {
    forall m :: m in r.replies ==>
      m < |reqs| && r.replies[m].requestId == reqs[m].requestId && HasFinished(r, r.replies[m].requestId, r.replies[m])
  }

  predicate Requested(reqs: seq<Request>, id: string) {
    exists m :: 0 <= m < |reqs| && reqs[m].requestId == id
  }

  predicate LogRequested(r: Runner, reqs: seq<Request>) {
    forall e :: e in r.log ==> Requested(reqs, e.id)
  }

  ghost predicate Inv(r: Runner, reqs: seq<Request>) {
    && (forall id :: IdConsistent(r, id))
    && (forall c :: c in r.calls ==> CallConsistent(r, reqs, r.calls[c]))
    && OneClaimant(r) && FinishedOnce(r) && RepliesConsistent(r, reqs) && LogRequested(r, reqs)
  }

  lemma InitInv(reqs: seq<Request>)
    ensures Inv(IDLE, reqs)
  {
  }

  lemma MoreRequests(r: Runner, reqs: seq<Request>, reqs': seq<Request>)
    requires Inv(r, reqs) && reqs <= reqs'
    ensures Inv(r, reqs')
  {
    forall e | e in r.log ensures Requested(reqs', e.id) {
      var m :| 0 <= m < |reqs| && reqs[m].requestId == e.id;
      assert reqs'[m].requestId == e.id;
    }
  }

  /** What a step on call `c` relies on. */
  predicate CallAt(r: Runner, reqs: seq<Request>, c: nat) {
    c in r.calls ==> CallConsistent(r, reqs, r.calls[c]) && IdConsistent(r, r.calls[c].id)
  }

  lemma LookKeepsId(digest: Approval.Digest, reqs: seq<Request>, r: Runner, c: nat, id: string)
    requires CallAt(r, reqs, c) && IdConsistent(r, id)
    ensures IdConsistent(Do(digest, reqs, r, Look(c)), id)
  {
  }

  /** r' is r after a claim was installed on `claimed`. */
  predicate RowClaimed(r: Runner, r': Runner, claimed: string) {
    r'.log == r.log && r'.memory.done == r.memory.done && claimed !in r.table
    && r'.table == r.table[claimed := Idempotency.Running]
  }

  /** r' is r after the memory learned, or did not learn, the response in a row. */
  predicate RowLearned(r: Runner, r': Runner, learned: string) {
    && r'.log == r.log && r'.table == r.table
    && (r'.memory.done == r.memory.done
        || (learned in r.table && r.table[learned].Complete?
            && r'.memory.done == r.memory.done[learned := r.table[learned].response]))
  }

  lemma ClaimKeepsId(r: Runner, r': Runner, claimed: string, id: string)
    requires RowClaimed(r, r', claimed) && IdConsistent(r, id)
    ensures IdConsistent(r', id)
  {
  }

  lemma LearningKeepsId(r: Runner, r': Runner, learned: string, id: string)
    requires RowLearned(r, r', learned) && IdConsistent(r, id)
    ensures IdConsistent(r', id)
  {
  }

  lemma BeginIs(digest: Approval.Digest, reqs: seq<Request>, r: Runner, c: nat)
    requires At(r, c, Missed)
    ensures var r' := Do(digest, reqs, r, Begin(c));
            RowClaimed(r, r', r.calls[c].id) || RowLearned(r, r', r.calls[c].id)
  {
  }

  lemma BeginKeepsId(digest: Approval.Digest, reqs: seq<Request>, r: Runner, c: nat, id: string)
    requires CallAt(r, reqs, c) && IdConsistent(r, id)
    ensures IdConsistent(Do(digest, reqs, r, Begin(c)), id)
  {
    if At(r, c, Missed) {
      var r' := Do(digest, reqs, r, Begin(c));
      BeginIs(digest, reqs, r, c);
      if RowClaimed(r, r', r.calls[c].id) {
        ClaimKeepsId(r, r', r.calls[c].id, id);
      } else {
        LearningKeepsId(r, r', r.calls[c].id, id);
      }
    }
  }

  lemma VerifyKeepsId(digest: Approval.Digest, reqs: seq<Request>, r: Runner, c: nat, id: string)
    requires CallAt(r, reqs, c) && IdConsistent(r, id)
    ensures IdConsistent(Do(digest, reqs, r, Verify(c)), id)
  {
  }

  lemma CompleteKeepsId(digest: Approval.Digest, reqs: seq<Request>, r: Runner, c: nat, response: Response, id: string)
    requires CallAt(r, reqs, c) && IdConsistent(r, id)
    ensures IdConsistent(Do(digest, reqs, r, Complete(c, response)), id)
  {
  }

  lemma StepKeepsId(digest: Approval.Digest, reqs: seq<Request>, r: Runner, s: Step, id: string)
    requires Inv(r, reqs)
    ensures IdConsistent(Do(digest, reqs, r, s), id)
  {
    assert IdConsistent(r, id);
    assert forall c :: CallAt(r, reqs, c);
    match s
    case Look(c) => LookKeepsId(digest, reqs, r, c, id);
    case Begin(c) => BeginKeepsId(digest, reqs, r, c, id);
    case Verify(c) => VerifyKeepsId(digest, reqs, r, c, id);
    case Complete(c, response) => CompleteKeepsId(digest, reqs, r, c, response, id);
    case _ =>
  }

  /** Two calls claim different ids. */
  predicate Apart(r: Runner, c: nat, d: nat) {
    c in r.calls && d in r.calls && c != d && Claims(r.calls[c]) && Claims(r.calls[d])
    ==> r.calls[c].id != r.calls[d].id
  }

  predicate CallIn(r: Runner, reqs: seq<Request>, d: nat) { d in r.calls ==> CallConsistent(r, reqs, r.calls[d]) }

  lemma BeginKeepsOther(digest: Approval.Digest, reqs: seq<Request>, r: Runner, c: nat, d: nat)
    requires CallAt(r, reqs, d) && c != d
    ensures CallIn(Do(digest, reqs, r, Begin(c)), reqs, d)
  {
  }

  lemma BeginKeepsOwn(digest: Approval.Digest, reqs: seq<Request>, r: Runner, c: nat)
    requires CallAt(r, reqs, c)
    ensures CallIn(Do(digest, reqs, r, Begin(c)), reqs, c)
  {
  }

  lemma BeginKeepsCall(digest: Approval.Digest, reqs: seq<Request>, r: Runner, c: nat, d: nat)
    requires CallAt(r, reqs, c) && CallAt(r, reqs, d)
    ensures CallIn(Do(digest, reqs, r, Begin(c)), reqs, d)
  {
    if c == d {
      BeginKeepsOwn(digest, reqs, r, c);
    } else {
      BeginKeepsOther(digest, reqs, r, c, d);
    }
  }

  lemma VerifyKeepsOther(digest: Approval.Digest, reqs: seq<Request>, r: Runner, c: nat, d: nat)
    requires CallAt(r, reqs, c) && CallAt(r, reqs, d) && Apart(r, c, d) && c != d
    ensures CallIn(Do(digest, reqs, r, Verify(c)), reqs, d)
  {
  }

  lemma VerifyKeepsOwn(digest: Approval.Digest, reqs: seq<Request>, r: Runner, c: nat)
    requires CallAt(r, reqs, c)
    ensures CallIn(Do(digest, reqs, r, Verify(c)), reqs, c)
  {
  }

  lemma VerifyKeepsCall(digest: Approval.Digest, reqs: seq<Request>, r: Runner, c: nat, d: nat)
    requires CallAt(r, reqs, c) && CallAt(r, reqs, d) && Apart(r, c, d)
    ensures CallIn(Do(digest, reqs, r, Verify(c)), reqs, d)
  {
    if c == d {
      VerifyKeepsOwn(digest, reqs, r, c);
    } else {
      VerifyKeepsOther(digest, reqs, r, c, d);
    }
  }

  lemma CompleteKeepsCall(digest: Approval.Digest, reqs: seq<Request>, r: Runner, c: nat, response: Response, d: nat)
    requires CallAt(r, reqs, c) && CallAt(r, reqs, d) && Apart(r, c, d)
    ensures CallIn(Do(digest, reqs, r, Complete(c, response)), reqs, d)
  {
  }

  lemma OtherKeepsCall(digest: Approval.Digest, reqs: seq<Request>, r: Runner, s: Step, d: nat)
    requires CallAt(r, reqs, d) && (s.Arrive? || s.Look? || s.Crash?)
    ensures CallIn(Do(digest, reqs, r, s), reqs, d)
  {
  }

  lemma StepKeepsCall(digest: Approval.Digest, reqs: seq<Request>, r: Runner, s: Step, d: nat)
    requires Inv(r, reqs)
    ensures CallIn(Do(digest, reqs, r, s), reqs, d)
  {
    assert forall c :: CallAt(r, reqs, c);
    assert forall c :: Apart(r, c, d);
    match s
    case Begin(c) => BeginKeepsCall(digest, reqs, r, c, d);
    case Verify(c) => VerifyKeepsCall(digest, reqs, r, c, d);
    case Complete(c, response) => CompleteKeepsCall(digest, reqs, r, c, response, d);
    case _ => OtherKeepsCall(digest, reqs, r, s, d);
  }

  /** No call claims an id before Begin installs its claim: the id has no row. */
  lemma BeginKeepsClaimant(digest: Approval.Digest, reqs: seq<Request>, r: Runner, c: nat)
    requires OneClaimant(r) && forall d :: d in r.calls ==> CallConsistent(r, reqs, r.calls[d])
    ensures OneClaimant(Do(digest, reqs, r, Begin(c)))
  {
    var r' := Do(digest, reqs, r, Begin(c));
    if At(r, c, Missed) {
      assert c in r'.calls && Claims(r'.calls[c]) ==> r.calls[c].id !in r.table;
    }
  }

  lemma OtherKeepsClaimant(digest: Approval.Digest, reqs: seq<Request>, r: Runner, s: Step)
    requires OneClaimant(r) && !s.Begin?
    ensures OneClaimant(Do(digest, reqs, r, s))
  {
  }

  lemma AppendKeepsFinishedOnce(r: Runner, r': Runner, e: Event)
    requires FinishedOnce(r) && r'.log == r.log + [e] && (ByClaim(e) ==> NeverFinished(r, e.id))
    ensures FinishedOnce(r')
  {
    forall i, j | 0 <= i < |r'.log| && 0 <= j < |r'.log| && ByClaim(r'.log[i]) && ByClaim(r'.log[j])
      ensures r'.log[i].id == r'.log[j].id ==> i == j
    {
      assert i < |r.log| ==> r.log[i] in r.log;
      assert j < |r.log| ==> r.log[j] in r.log;
    }
  }

  lemma StepKeepsFinishedOnce(digest: Approval.Digest, reqs: seq<Request>, r: Runner, s: Step)
    requires FinishedOnce(r) && (s.Complete? ==> CallAt(r, reqs, s.call))
    ensures FinishedOnce(Do(digest, reqs, r, s))
  {
    var r' := Do(digest, reqs, r, s);
    if r'.log != r.log {
      AppendKeepsFinishedOnce(r, r', r'.log[|r.log|]);
    }
  }

  lemma FinishedStays(r: Runner, r': Runner, id: string, response: Response)
    requires HasFinished(r, id, response) && (r'.log == r.log || exists e :: r'.log == r.log + [e])
    ensures HasFinished(r', id, response)
  {
  }

  lemma StepKeepsReplies(digest: Approval.Digest, reqs: seq<Request>, r: Runner, s: Step)
    requires RepliesConsistent(r, reqs) && (s.Look? || s.Complete? ==> CallAt(r, reqs, s.call))
    ensures RepliesConsistent(Do(digest, reqs, r, s), reqs)
  {
    var r' := Do(digest, reqs, r, s);
    assert r'.log == r.log || r'.log == r.log + [r'.log[|r.log|]];
    forall m | m in r'.replies
      ensures m < |reqs| && r'.replies[m].requestId == reqs[m].requestId
      ensures HasFinished(r', r'.replies[m].requestId, r'.replies[m])
    {
      if m in r.replies && r'.replies[m] == r.replies[m] {
        FinishedStays(r, r', r.replies[m].requestId, r.replies[m]);
      }
    }
  }

  lemma StepKeepsLog(digest: Approval.Digest, reqs: seq<Request>, r: Runner, s: Step)
    requires LogRequested(r, reqs) && (s.Verify? || s.Complete? ==> CallAt(r, reqs, s.call))
    ensures LogRequested(Do(digest, reqs, r, s), reqs)
  {
  }

  /** The log only grows, by one event at most. */
  lemma LogGrows(digest: Approval.Digest, reqs: seq<Request>, r: Runner, s: Step)
    ensures r.log <= Do(digest, reqs, r, s).log
  {
  }

  lemma StepKeepsInv(digest: Approval.Digest, reqs: seq<Request>, r: Runner, s: Step)
    requires Inv(r, reqs)
    ensures Inv(Do(digest, reqs, r, s), reqs)
  {
    forall id ensures IdConsistent(Do(digest, reqs, r, s), id) {
      StepKeepsId(digest, reqs, r, s, id);
    }
    forall d | d in Do(digest, reqs, r, s).calls
      ensures CallConsistent(Do(digest, reqs, r, s), reqs, Do(digest, reqs, r, s).calls[d])
    {
      StepKeepsCall(digest, reqs, r, s, d);
    }
    assert forall c :: CallAt(r, reqs, c);
    if s.Begin? {
      BeginKeepsClaimant(digest, reqs, r, s.call);
    } else {
      OtherKeepsClaimant(digest, reqs, r, s);
    }
    StepKeepsFinishedOnce(digest, reqs, r, s);
    StepKeepsReplies(digest, reqs, r, s);
    StepKeepsLog(digest, reqs, r, s);
  }

  // ------------------------------------------------------ at most one entry

  /** In every reachable state an id's plan has entered the effect phase at most once
      exactly when no call entered it through Begin's completed branch, the success
      without a claim; entries with a claim never exceed one. */
  lemma AtMostOnceExactly(r: Runner, reqs: seq<Request>, id: string)
    requires Inv(r, reqs)
    ensures Entries(r, id, true) <= 1
    ensures Entries(r, id, true) + Entries(r, id, false) <= 1 <==> Entries(r, id, false) == 0
  {
    assert IdConsistent(r, id);
  }

  /** A call arrives only while no other call with its id is being served. */
  predicate InTurn(reqs: seq<Request>, r: Runner, s: Step) {
    s.Arrive? && s.msg < |reqs| ==> forall c :: c in r.calls ==> r.calls[c].id != reqs[s.msg].requestId
  }

  /** Calls with one id are served one after another, and none took the completed branch. */
  predicate Serial(r: Runner) {
    && (forall c, d | c in r.calls && d in r.calls :: r.calls[c].id == r.calls[d].id ==> c == d)
    && (forall c :: c in r.calls ==> !Bypasses(r.calls[c]))
    && (forall c :: c in r.calls && r.calls[c].phase.Missed? ==> NotDone(r, r.calls[c].id))
    && (forall e :: e in r.log ==> e.claimed)
  }

  predicate NotDone(r: Runner, id: string) {
    id !in r.memory.done && (id in r.table ==> r.table[id].Running?)
  }

  lemma TurnsKeepSerial(digest: Approval.Digest, reqs: seq<Request>, r: Runner, s: Step)
    requires Inv(r, reqs) && Serial(r) && InTurn(reqs, r, s)
    ensures Serial(Do(digest, reqs, r, s))
  {
    match s
    case Arrive(_, _) => ArriveKeepsSerial(digest, reqs, r, s);
    case Look(c) => LookKeepsSerial(digest, reqs, r, c);
    case Begin(c) => BeginKeepsSerial(digest, reqs, r, c);
    case Complete(c, response) => CompleteKeepsSerial(digest, reqs, r, c, response);
    case Verify(c) => VerifyKeepsSerial(digest, reqs, r, c);
    case Crash =>
  }

  lemma VerifyKeepsSerial(digest: Approval.Digest, reqs: seq<Request>, r: Runner, c: nat)
    requires Serial(r)
    ensures Serial(Do(digest, reqs, r, Verify(c)))
  {
  }

  lemma ArriveKeepsSerial(digest: Approval.Digest, reqs: seq<Request>, r: Runner, s: Step)
    requires Serial(r) && InTurn(reqs, r, s) && s.Arrive?
    ensures Serial(Do(digest, reqs, r, s))
  {
  }

  lemma LookKeepsSerial(digest: Approval.Digest, reqs: seq<Request>, r: Runner, c: nat)
    requires Serial(r)
    ensures Serial(Do(digest, reqs, r, Look(c)))
  {
  }

  lemma BeginKeepsSerial(digest: Approval.Digest, reqs: seq<Request>, r: Runner, c: nat)
    requires Serial(r)
    ensures Serial(Do(digest, reqs, r, Begin(c)))
  {
  }

  lemma CompleteKeepsSerial(digest: Approval.Digest, reqs: seq<Request>, r: Runner, c: nat, response: Response)
    requires Serial(r)
    ensures Serial(Do(digest, reqs, r, Complete(c, response)))
  {
  }

  lemma SerialHasNoBypass(r: Runner, id: string)
    requires Serial(r)
    ensures Entries(r, id, false) == 0
  {
    assert Entered(id, false) !in r.log;
  }

  // ----------------------------------------------------------- blocked ids

  predicate Waiting(call: Call) { call.phase.Arrived? || call.phase.Missed? }

  /** The id's row is running, and nobody is left who could complete it. */
  predicate Stuck(r: Runner, id: string) {
    && id in r.table && r.table[id].Running? && id !in r.memory.done
    && forall c :: c in r.calls && r.calls[c].id == id ==> Waiting(r.calls[c])
  }

  /** No event of the id is logged, and its replies are as they were. */
  predicate Silent(r: Runner, r': Runner, reqs: seq<Request>, id: string) {
    && r.log <= r'.log && (forall i :: |r.log| <= i < |r'.log| ==> r'.log[i].id != id)
    && (forall m :: m in r'.replies && m < |reqs| && reqs[m].requestId == id ==>
          m in r.replies && r'.replies[m] == r.replies[m])
  }

  lemma WaitingStaysStuck(digest: Approval.Digest, reqs: seq<Request>, r: Runner, s: Step, id: string)
    requires Stuck(r, id) && (s.Arrive? || s.Look? || s.Begin? || s.Crash?)
    requires forall c :: c in r.calls ==> CallConsistent(r, reqs, r.calls[c])
    ensures Stuck(Do(digest, reqs, r, s), id) && Silent(r, Do(digest, reqs, r, s), reqs, id)
  {
  }

  lemma OthersKeepStuck(digest: Approval.Digest, reqs: seq<Request>, r: Runner, s: Step, id: string)
    requires Stuck(r, id) && (s.Verify? || s.Complete?)
    requires forall c :: c in r.calls ==> CallConsistent(r, reqs, r.calls[c])
    ensures Stuck(Do(digest, reqs, r, s), id) && Silent(r, Do(digest, reqs, r, s), reqs, id)
  {
  }

  /** A stuck id stays stuck, and no call with it is answered or performed. */
  lemma StuckStays(digest: Approval.Digest, reqs: seq<Request>, r: Runner, s: Step, id: string)
    requires Inv(r, reqs) && Stuck(r, id)
    ensures Stuck(Do(digest, reqs, r, s), id) && Silent(r, Do(digest, reqs, r, s), reqs, id)
  {
    if s.Verify? || s.Complete? {
      OthersKeepStuck(digest, reqs, r, s, id);
    } else {
      WaitingStaysStuck(digest, reqs, r, s, id);
    }
  }

  /** A call whose approval does not match, after Begin gave it a claim, leaves its id stuck. */
  lemma RefusalSticks(digest: Approval.Digest, reqs: seq<Request>, r: Runner, c: nat)
    requires Inv(r, reqs) && At(r, c, Begun(true))
    requires var req := reqs[r.calls[c].msg];
             !Approval.Verify(digest, req.approvalHash, req.runId, req.workspaceId, Rebuild(req))
    ensures Stuck(Do(digest, reqs, r, Verify(c)), r.calls[c].id)
  {
    var id := r.calls[c].id;
    var r' := Do(digest, reqs, r, Verify(c));
    assert CallConsistent(r, reqs, r.calls[c]) && IdConsistent(r, id);
    forall d | d in r'.calls && r'.calls[d].id == id ensures Waiting(r'.calls[d]) {
      assert CallConsistent(r, reqs, r.calls[d]);
    }
  }

  /** When the process dies, by a panic or otherwise, every id whose row is running is stuck. */
  lemma CrashSticks(digest: Approval.Digest, reqs: seq<Request>, r: Runner, id: string)
    requires id in r.table && r.table[id].Running?
    ensures Stuck(Do(digest, reqs, r, Crash), id)
  {
  }

  /** When the process dies with a call in its effect phase, the call's id is stuck exactly
      when the call holds the claim; without one its row is complete. */
  lemma DeathInEffects(digest: Approval.Digest, reqs: seq<Request>, r: Runner, c: nat)
    requires Inv(r, reqs) && c in r.calls && r.calls[c].phase.Performing?
    ensures Stuck(Do(digest, reqs, r, Crash), r.calls[c].id) <==> r.calls[c].phase.claimed
  {
    assert CallConsistent(r, reqs, r.calls[c]);
  }

  /** The runner dies while the id's row is running, or refuses the approval of a call of
      the id that holds its claim. */
  predicate Sticks(digest: Approval.Digest, reqs: seq<Request>, r: Runner, s: Step, id: string) {
    || (s.Crash? && id in r.table && r.table[id].Running?)
    || (s.Verify? && At(r, s.call, Begun(true)) && r.calls[s.call].id == id && r.calls[s.call].msg < |reqs|
        && var req := reqs[r.calls[s.call].msg];
           !Approval.Verify(digest, req.approvalHash, req.runId, req.workspaceId, Rebuild(req)))
  }

  /** With a running row, an id that is not stuck is one a call could still complete. */
  lemma UnstuckIsServed(r: Runner, reqs: seq<Request>, id: string) returns (c: nat)
    requires Inv(r, reqs) && !Stuck(r, id) && id in r.table && r.table[id].Running?
    ensures c in r.calls && r.calls[c].id == id && Claims(r.calls[c])
  {
    assert IdConsistent(r, id);
    c :| c in r.calls && r.calls[c].id == id && !Waiting(r.calls[c]);
    assert CallConsistent(r, reqs, r.calls[c]);
  }

  lemma StuckByVerify(digest: Approval.Digest, reqs: seq<Request>, r: Runner, c: nat, id: string, holder: nat)
    requires holder in r.calls && r.calls[holder].id == id && Claims(r.calls[holder])
    requires c in r.calls ==> r.calls[c].msg < |reqs|
    requires Stuck(Do(digest, reqs, r, Verify(c)), id)
    ensures Sticks(digest, reqs, r, Verify(c), id)
  {
    var r' := Do(digest, reqs, r, Verify(c));
    assert holder in r'.calls ==> r'.calls[holder].id == id && !Waiting(r'.calls[holder]);
    assert holder !in r'.calls;
    assert c == holder && r.calls[c].phase == Begun(true);
  }

  lemma HolderStays(digest: Approval.Digest, reqs: seq<Request>, r: Runner, s: Step, id: string, holder: nat)
    requires holder in r.calls && r.calls[holder].id == id && Claims(r.calls[holder])
    requires !s.Crash? && !s.Verify? && (s.Complete? ==> s.call != holder)
    ensures !Stuck(Do(digest, reqs, r, s), id)
  {
    assert holder in Do(digest, reqs, r, s).calls;
    assert Do(digest, reqs, r, s).calls[holder] == r.calls[holder];
  }

  lemma CompletedIsNotStuck(digest: Approval.Digest, reqs: seq<Request>, r: Runner, c: nat, response: Response)
    requires c in r.calls && r.calls[c].phase.Performing?
    ensures !Stuck(Do(digest, reqs, r, Complete(c, response)), r.calls[c].id)
  {
  }

  /** A row that begins to run has a call that claims it. */
  lemma NewRowIsServed(digest: Approval.Digest, reqs: seq<Request>, r: Runner, s: Step, id: string)
    requires !(id in r.table && r.table[id].Running?)
    ensures !Stuck(Do(digest, reqs, r, s), id)
  {
    var r' := Do(digest, reqs, r, s);
    if id in r'.table && r'.table[id].Running? {
      assert s.Begin? && s.call in r'.calls && r'.calls[s.call].id == id && !Waiting(r'.calls[s.call]);
    }
  }

  /** In every state a step leaves an id stuck that was not exactly in these two ways. */
  lemma StuckExactly(digest: Approval.Digest, reqs: seq<Request>, r: Runner, s: Step, id: string)
    requires Inv(r, reqs) && !Stuck(r, id)
    ensures Stuck(Do(digest, reqs, r, s), id) <==> Sticks(digest, reqs, r, s, id)
  {
    if id in r.table && r.table[id].Running? {
      var holder := UnstuckIsServed(r, reqs, id);
      match s
      case Crash => CrashSticks(digest, reqs, r, id);
      case Verify(c) =>
        if c in r.calls { assert CallConsistent(r, reqs, r.calls[c]); }
        if Sticks(digest, reqs, r, s, id) {
          RefusalSticks(digest, reqs, r, c);
        } else if Stuck(Do(digest, reqs, r, s), id) {
          StuckByVerify(digest, reqs, r, c, id, holder);
        }
      case Complete(c, response) =>
        if c == holder && r.calls[c].phase.Performing? {
          CompletedIsNotStuck(digest, reqs, r, c, response);
        } else if c != holder {
          HolderStays(digest, reqs, r, s, id, holder);
        }
      case _ => HolderStays(digest, reqs, r, s, id, holder);
    } else {
      NewRowIsServed(digest, reqs, r, s, id);
      if s.Verify? && At(r, s.call, Begun(true)) {
        assert CallConsistent(r, reqs, r.calls[s.call]);
      }
    }
  }
}
