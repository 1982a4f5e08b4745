/** Peer review: one worker per reviewer, each going round the proposals from its own
    starting point and skipping its own; workers share the results and the first error
    under a lock. */
module Review {
  import opened Results
  import Alias

  datatype Seat = Seat(id: string, provider: string, model: string)

  datatype Proposal = Proposal(seat: Seat, value: string)

  datatype PeerReview = PeerReview(reviewerSeatId: string, proposalAlias: string, body: string)

  datatype Generated = Generated(seat: Seat, value: PeerReview)

  datatype Error = Required | ProviderNotFound(provider: string) | Provider(message: string) | InvalidArtifact

  /** What the model makes of one prompt: an error, text that is no review, or a review. */
  datatype Answer = Failed(message: string) | Garbled | Reviewed(body: string)

  /** `answer` gives each reviewer's answer for each proposal. */
  datatype Input = Input(
    proposals: seq<Proposal>,
    reviewers: seq<Seat>,
    registered: set<string>,
    answer: (nat, nat) -> Answer)

  predicate Own(x: Input, ri: nat, pi: nat)
    requires ri < |x.reviewers| && pi < |x.proposals|
  {
    x.proposals[pi].seat.id == x.reviewers[ri].id
  }

  function Target(x: Input, ri: nat, offset: nat): (pi: nat)
    requires x.proposals != []
    ensures pi < |x.proposals|
  {
    (ri + offset) % |x.proposals|
  }

  function ReviewOf(x: Input, ri: nat, pi: nat): Generated
    requires ri < |x.reviewers| && x.answer(ri, pi).Reviewed?
  {
    Generated(x.reviewers[ri], PeerReview(x.reviewers[ri].id, Alias.AliasOf(pi), x.answer(ri, pi).body))
  }

  /** The result is this reviewer's review of this proposal: under the reviewer's seat, for
      the proposal's alias, with the body the model answered. */
  predicate Reviews(x: Input, ri: nat, pi: nat, g: Generated) {
    && ri < |x.reviewers| && g.seat == x.reviewers[ri] && g.value.reviewerSeatId == x.reviewers[ri].id
    && g.value.proposalAlias == Alias.AliasOf(pi) && x.answer(ri, pi) == Reviewed(g.value.body)
  }

  // ----------------------------------------------------- one worker's actions

  /** What a worker does under the lock: add its review of a proposal, or report an error. */
  datatype Action = Add(reviewer: nat, proposal: nat) | Report(error: Error)

  /** The error of a call that does not end in a review. */
  function ErrorOf(a: Answer): Error
    requires !a.Reviewed?
  {
    if a.Failed? then Provider(a.message) else InvalidArtifact
  }

  /** The actions from this offset on: the first error ends them. */
  function ActionsFrom(x: Input, ri: nat, offset: nat): seq<Action>
    requires x.proposals != [] && ri < |x.reviewers|
    decreases |x.proposals| + 1 - offset
  {
    if offset > |x.proposals| then []
    else
      var pi := Target(x, ri, offset);
      if Own(x, ri, pi) then ActionsFrom(x, ri, offset + 1)
      else if !x.answer(ri, pi).Reviewed? then [Report(ErrorOf(x.answer(ri, pi)))]
      else [Add(ri, pi)] + ActionsFrom(x, ri, offset + 1)
  }

  function Actions(x: Input, ri: nat): seq<Action>
    requires x.proposals != [] && ri < |x.reviewers|
  {
    if x.reviewers[ri].provider !in x.registered then [Report(ProviderNotFound(x.reviewers[ri].provider))]
    else ActionsFrom(x, ri, 1)
  }

  // ------------------------------------------------------- the shared state

  /** The reviews added, as pairs in the order they were, and the first error reported. */
  datatype Board = Board(added: seq<(nat, nat)>, firstErr: Option<Error>)

  function Act(b: Board, a: Action): Board {
    match a
    case Add(ri, pi) => b.(added := b.added + [(ri, pi)])
    case Report(e) => if b.firstErr.None? then b.(firstErr := Some(e)) else b
  }

  function ActAll(b: Board, actions: seq<Action>): Board
    decreases |actions|
  {
    if actions == [] then b else ActAll(Act(b, actions[0]), actions[1..])
  }

  // ------------------------------------------------------ any schedule

  /** How many of its actions each worker has done. */
  datatype Progress = Progress(done: seq<nat>, board: Board)

  function Begin(x: Input): Progress { Progress(seq(|x.reviewers|, _ => 0), Board([], None)) }

  predicate CanAct(x: Input, s: Progress, w: nat)
    requires x.proposals != []
  {
    w < |x.reviewers| && w < |s.done| && s.done[w] < |Actions(x, w)|
  }

  /** Worker w gets the lock for its next action, if it has one. */
  function Turn(x: Input, s: Progress, w: nat): Progress
    requires x.proposals != []
  {
    if !CanAct(x, s, w) then s
    else Progress(s.done[w := s.done[w] + 1], Act(s.board, Actions(x, w)[s.done[w]]))
  }

  function Schedule(x: Input, s: Progress, turns: seq<nat>): Progress
    requires x.proposals != []
  {
    if turns == [] then s else Turn(x, Schedule(x, s, turns[..|turns| - 1]), turns[|turns| - 1])
  }

  /** Every worker is through. */
  predicate Complete(x: Input, s: Progress)
    requires x.proposals != []
  {
    |s.done| == |x.reviewers| && forall w :: 0 <= w < |s.done| ==> s.done[w] == |Actions(x, w)|
  }

  lemma {:induction false} ScheduleAppend(x: Input, s: Progress, turns: seq<nat>, more: seq<nat>)
    requires x.proposals != []
    ensures Schedule(x, s, turns + more) == Schedule(x, Schedule(x, s, turns), more)
  {
    if more == [] {
      assert turns + more == turns;
    } else {
      assert (turns + more)[..|turns + more| - 1] == turns + more[..|more| - 1];
      ScheduleAppend(x, s, turns, more[..|more| - 1]);
    }
  }

  lemma TurnDoes(x: Input, s: Progress, w: nat)
    requires x.proposals != [] && CanAct(x, s, w)
    ensures var s', actions := Turn(x, s, w), Actions(x, w);
            && s'.done == s.done[w := s.done[w] + 1]
            && ActAll(s.board, actions[s.done[w]..]) == ActAll(s'.board, actions[s.done[w] + 1..])
            && Schedule(x, s, [w]) == s'
  {
    var rest := Actions(x, w)[s.done[w]..];
    assert rest[1..] == Actions(x, w)[s.done[w] + 1..];
    assert [w][..0] == [];
  }

  /** A worker that keeps the lock does all its actions in order. */
  lemma {:induction false} WorkerAlone(x: Input, s: Progress, w: nat)
    returns (turns: seq<nat>)
    requires x.proposals != [] && w < |x.reviewers| == |s.done| && s.done[w] <= |Actions(x, w)|
    ensures Schedule(x, s, turns)
            == Progress(s.done[w := |Actions(x, w)|], ActAll(s.board, Actions(x, w)[s.done[w]..]))
    decreases |Actions(x, w)| - s.done[w]
  {
    var n := |Actions(x, w)|;
    if s.done[w] == n {
      turns := [];
      assert s.done[w := n] == s.done;
    } else {
      var s' := Turn(x, s, w);
      TurnDoes(x, s, w);
      var more := WorkerAlone(x, s', w);
      assert s'.done[w := n] == s.done[w := n];
      turns := [w] + more;
      ScheduleAppend(x, s, [w], more);
    }
  }

  lemma AfterReview(x: Input, b: Board, ri: nat, offset: nat)
    requires x.proposals != [] && ri < |x.reviewers| && offset <= |x.proposals|
    requires var pi := Target(x, ri, offset); !Own(x, ri, pi) && x.answer(ri, pi).Reviewed?
    ensures ActAll(b, ActionsFrom(x, ri, offset))
            == ActAll(Act(b, Add(ri, Target(x, ri, offset))), ActionsFrom(x, ri, offset + 1))
  {
    assert ActionsFrom(x, ri, offset)[1..] == ActionsFrom(x, ri, offset + 1);
  }

  lemma AfterError(x: Input, b: Board, ri: nat, offset: nat)
    requires x.proposals != [] && ri < |x.reviewers| && offset <= |x.proposals|
    requires var pi := Target(x, ri, offset); !Own(x, ri, pi) && !x.answer(ri, pi).Reviewed?
    ensures ActAll(b, ActionsFrom(x, ri, offset)) == Act(b, Report(ErrorOf(x.answer(ri, Target(x, ri, offset)))))
  {
  }

  class Reviewing {
    const x: Input
    var added: seq<(nat, nat)>
    var results: seq<Generated>
    var firstErr: Option<Error>

    constructor (x: Input)
      ensures this.x == x && Shared() == Board([], None) && results == []
    {
      this.x := x;
      added, results, firstErr := [], [], None;
    }

    function Shared(): Board
      reads this
    {
      Board(added, firstErr)
    }

    /** One review per pair, in the order of the pairs. */
    predicate Valid()
      reads this
    {
      && |results| == |added|
      && forall k :: 0 <= k < |added| ==>
           && added[k].0 < |x.reviewers| && x.answer(added[k].0, added[k].1).Reviewed?
           && results[k] == ReviewOf(x, added[k].0, added[k].1)
    }

    method ReportError(e: Error)
      modifies this`firstErr
      ensures Shared() == Act(old(Shared()), Report(e))
    {
      if firstErr.None? {
        firstErr := Some(e);
      }
    }

    method AddReview(ri: nat, pi: nat, g: Generated)
      requires Valid() && ri < |x.reviewers| && x.answer(ri, pi).Reviewed? && g == ReviewOf(x, ri, pi)
      modifies this`added, this`results
      ensures Valid() && Shared() == Act(old(Shared()), Add(ri, pi))
    {
      results := results + [g];
      added := added + [(ri, pi)];
    }

    /** The worker of one reviewer, with the lock to itself. */
    method Work(ri: nat)
      requires Valid() && x.proposals != [] && ri < |x.reviewers|
      modifies this
      ensures Valid() && Shared() == ActAll(old(Shared()), Actions(x, ri))
    {
      var reviewer := x.reviewers[ri];
      if reviewer.provider !in x.registered {
        ReportError(ProviderNotFound(reviewer.provider));
        return;
      }
      var offset := 1;
      while offset <= |x.proposals|
        invariant 1 <= offset <= |x.proposals| + 1 && Valid()
        invariant ActAll(Shared(), ActionsFrom(x, ri, offset)) == ActAll(old(Shared()), Actions(x, ri))
      {
        assert Target(x, ri, offset) == (ri + offset) % |x.proposals|;
        var pi := (ri + offset) % |x.proposals|;
        if x.proposals[pi].seat.id != reviewer.id {
          var response := x.answer(ri, pi);
          if !response.Reviewed? {
            AfterError(x, Shared(), ri, offset);
            ReportError(if response.Failed? then Provider(response.message) else InvalidArtifact);
            return;
          }
          AfterReview(x, Shared(), ri, offset);
          var alias := Alias.ProposalAlias(pi);
          AddReview(ri, pi, Generated(reviewer, PeerReview(reviewer.id, alias, response.body)));
        }
        offset := offset + 1;
      }
    }
  }

  // -------------------------------------------------- going round once

  lemma MultipleIsLarge(k: int, n: int)
    requires k >= 1 && n > 0
    ensures k * n >= n
    ensures -k * n <= -n
  {
    assert k * n == n + (k - 1) * n && (k - 1) * n >= 0;
  }

  lemma OnlyZeroBetween(k: int, n: int)
    requires n > 0 && -n < k * n < n
    ensures k == 0
  {
    if k >= 1 {
      MultipleIsLarge(k, n);
    } else if k <= -1 {
      MultipleIsLarge(-k, n);
    }
  }

  lemma SameResidue(a: int, b: int, n: int)
    requires n > 0 && a % n == b % n && -n < a - b < n
    ensures a == b
  {
    assert a - b == (a / n - b / n) * n;
    OnlyZeroBetween(a / n - b / n, n);
  }

  /** The one offset at which reviewer ri comes to proposal pi. */
  function OffsetOf(ri: nat, pi: nat, n: nat): (offset: nat)
    requires pi < n
    ensures 1 <= offset <= n
  {
    (pi - ri - 1) % n + 1
  }

  lemma OffsetReaches(ri: nat, pi: nat, n: nat)
    requires pi < n
    ensures (ri + OffsetOf(ri, pi, n)) % n == pi
  {
    var k := (pi - ri - 1) / n;
    var t := ri + OffsetOf(ri, pi, n);
    assert t == pi + -k * n;
    Residue(t, -k, pi, n);
  }

  lemma Residue(t: int, k: int, r: nat, n: nat)
    requires r < n && t == r + k * n
    ensures t % n == r
  {
    assert r - t % n == (t / n - k) * n;
    OnlyZeroBetween(t / n - k, n);
  }

  lemma TargetAt(x: Input, ri: nat, offset: nat, pi: nat)
    requires 1 <= offset <= |x.proposals| && pi < |x.proposals|
    ensures Target(x, ri, offset) == pi <==> offset == OffsetOf(ri, pi, |x.proposals|)
  {
    var n := |x.proposals|;
    OffsetReaches(ri, pi, n);
    if Target(x, ri, offset) == pi {
      SameResidue(ri + offset, ri + OffsetOf(ri, pi, n), n);
    }
  }

  /** At any one offset no two of the first reviewers are at the same proposal. */
  lemma RotationSpreads(x: Input, ri: nat, rj: nat, offset: nat)
    requires ri < |x.proposals| && rj < |x.proposals| && ri != rj
    ensures Target(x, ri, offset) != Target(x, rj, offset)
  {
    if Target(x, ri, offset) == Target(x, rj, offset) {
      SameResidue(ri + offset, rj + offset, |x.proposals|);
    }
  }

  // ------------------------------------------------------ what a worker adds

  /** The worker can review every proposal that is not its own. */
  predicate Answered(x: Input, ri: nat)
    requires ri < |x.reviewers|
  {
    && x.reviewers[ri].provider in x.registered
    && forall pi :: 0 <= pi < |x.proposals| && x.proposals[pi].seat.id != x.reviewers[ri].id ==>
         x.answer(ri, pi).Reviewed?
  }

  /** The proposal is another seat's. */
  predicate Foreign(x: Input, ri: nat, pi: nat) {
    ri < |x.reviewers| && pi < |x.proposals| && x.proposals[pi].seat.id != x.reviewers[ri].id
  }

  predicate Reports(actions: seq<Action>) { exists k :: 0 <= k < |actions| && actions[k].Report? }

  function TimesAdded(actions: seq<Action>, ri: nat, pi: nat): nat { multiset(actions)[Add(ri, pi)] }

  /** From this offset on, every proposal not the reviewer's own and not yet passed is
      answered. */
  predicate AnsweredFrom(x: Input, ri: nat, offset: nat)
    requires ri < |x.reviewers|
  {
    forall pi :: 0 <= pi < |x.proposals| && !Own(x, ri, pi) && OffsetOf(ri, pi, |x.proposals|) >= offset
      ==> x.answer(ri, pi).Reviewed?
  }

  lemma NextAnswered(x: Input, ri: nat, offset: nat)
    requires ri < |x.reviewers| && 1 <= offset <= |x.proposals|
    ensures var t := Target(x, ri, offset);
            AnsweredFrom(x, ri, offset)
            <==> AnsweredFrom(x, ri, offset + 1) && (Own(x, ri, t) || x.answer(ri, t).Reviewed?)
  {
    var t := Target(x, ri, offset);
    TargetAt(x, ri, offset, t);
    forall pi | 0 <= pi < |x.proposals| && OffsetOf(ri, pi, |x.proposals|) == offset ensures pi == t {
      TargetAt(x, ri, offset, pi);
    }
  }

  lemma AddsFirst(x: Input, ri: nat, offset: nat, pi: nat)
    requires x.proposals != [] && ri < |x.reviewers| && offset <= |x.proposals|
    requires var t := Target(x, ri, offset); Own(x, ri, t) || x.answer(ri, t).Reviewed?
    ensures var t := Target(x, ri, offset);
            TimesAdded(ActionsFrom(x, ri, offset), ri, pi)
            == TimesAdded(ActionsFrom(x, ri, offset + 1), ri, pi) + if t == pi && !Own(x, ri, t) then 1 else 0
  {
  }

  lemma {:induction false} AddsFrom(x: Input, ri: nat, offset: nat, pi: nat)
    requires x.proposals != [] && ri < |x.reviewers| && 1 <= offset <= |x.proposals| + 1
    requires AnsweredFrom(x, ri, offset)
    ensures TimesAdded(ActionsFrom(x, ri, offset), ri, pi)
            == if pi < |x.proposals| && !Own(x, ri, pi) && OffsetOf(ri, pi, |x.proposals|) >= offset then 1 else 0
    decreases |x.proposals| + 1 - offset
  {
    if offset <= |x.proposals| {
      TargetAt(x, ri, offset, Target(x, ri, offset));
      NextAnswered(x, ri, offset);
      AddsFirst(x, ri, offset, pi);
      AddsFrom(x, ri, offset + 1, pi);
      if pi < |x.proposals| {
        TargetAt(x, ri, offset, pi);
      }
    }
  }

  lemma {:induction false} ReportsFrom(x: Input, ri: nat, offset: nat)
    requires x.proposals != [] && ri < |x.reviewers| && 1 <= offset <= |x.proposals| + 1
    ensures Reports(ActionsFrom(x, ri, offset)) <==> !AnsweredFrom(x, ri, offset)
    decreases |x.proposals| + 1 - offset
  {
    if offset <= |x.proposals| {
      var t := Target(x, ri, offset);
      TargetAt(x, ri, offset, t);
      ReportsFrom(x, ri, offset + 1);
      NextAnswered(x, ri, offset);
      ReportsNext(x, ri, offset);
    }
  }

  lemma ReportsNext(x: Input, ri: nat, offset: nat)
    requires x.proposals != [] && ri < |x.reviewers| && offset <= |x.proposals|
    ensures var t := Target(x, ri, offset);
            Reports(ActionsFrom(x, ri, offset))
            <==> (!Own(x, ri, t) && !x.answer(ri, t).Reviewed?) || Reports(ActionsFrom(x, ri, offset + 1))
  {
    var t := Target(x, ri, offset);
    var rest := ActionsFrom(x, ri, offset + 1);
    if !Own(x, ri, t) && x.answer(ri, t).Reviewed? {
      var actions := ActionsFrom(x, ri, offset);
      assert actions == [Add(ri, t)] + rest;
      assert forall k :: 0 <= k < |rest| ==> actions[k + 1] == rest[k];
      if Reports(actions) {
        var k :| 0 <= k < |actions| && actions[k].Report?;
        assert rest[k - 1].Report?;
      }
    } else if !Own(x, ri, t) {
      assert ActionsFrom(x, ri, offset)[0].Report?;
    }
  }

  /** A worker reports an error exactly when it cannot review all it should, and
      otherwise adds exactly one review of each proposal that is not its own. */
  lemma WorkerCoverage(x: Input, ri: nat, pi: nat)
    requires x.proposals != [] && ri < |x.reviewers|
    ensures Reports(Actions(x, ri)) <==> !Answered(x, ri)
    ensures Answered(x, ri) ==>
              TimesAdded(Actions(x, ri), ri, pi) == if Foreign(x, ri, pi) then 1 else 0
  {
    if x.reviewers[ri].provider in x.registered {
      ReportsFrom(x, ri, 1);
      assert AnsweredFrom(x, ri, 1) <==> Answered(x, ri);
      if Answered(x, ri) {
        AddsFrom(x, ri, 1, pi);
      }
    } else {
      assert Actions(x, ri)[0].Report?;
    }
  }

  /** The call for this offset's proposal is the worker's first that gives no review. */
  predicate FailsAt(x: Input, ri: nat, offset: nat, e: Error)
    requires x.proposals != [] && ri < |x.reviewers|
  {
    var pi := (ri + offset) % |x.proposals|;
    && !Own(x, ri, pi)
    && (match x.answer(ri, pi)
        case Failed(message) => e == Provider(message)
        case Garbled => e == InvalidArtifact
        case Reviewed(_) => false)
    && forall earlier :: 1 <= earlier < offset ==>
         Own(x, ri, Target(x, ri, earlier)) || x.answer(ri, Target(x, ri, earlier)).Reviewed?
  }

  /** The worker's error: its provider is missing, or its first call that gives no review. */
  predicate FailsWith(x: Input, ri: nat, e: Error)
    requires x.proposals != [] && ri < |x.reviewers|
  {
    if x.reviewers[ri].provider !in x.registered then e == ProviderNotFound(x.reviewers[ri].provider)
    else exists offset :: 1 <= offset <= |x.proposals| && FailsAt(x, ri, offset, e)
  }

  lemma {:induction false} ErrorFrom(x: Input, ri: nat, offset: nat, e: Error)
    requires x.proposals != [] && ri < |x.reviewers| && offset >= 1
    requires forall earlier :: 1 <= earlier < offset ==>
               Own(x, ri, Target(x, ri, earlier)) || x.answer(ri, Target(x, ri, earlier)).Reviewed?
    requires Report(e) in ActionsFrom(x, ri, offset)
    ensures exists o :: 1 <= o <= |x.proposals| && FailsAt(x, ri, o, e)
    decreases |x.proposals| + 1 - offset
  {
    var t := Target(x, ri, offset);
    if Own(x, ri, t) || x.answer(ri, t).Reviewed? {
      ErrorFrom(x, ri, offset + 1, e);
    } else {
      assert FailsAt(x, ri, offset, e);
    }
  }

  /** What a worker reports is its error. */
  lemma WorkerError(x: Input, ri: nat, e: Error)
    requires x.proposals != [] && ri < |x.reviewers| && Report(e) in Actions(x, ri)
    ensures FailsWith(x, ri, e)
  {
    if x.reviewers[ri].provider in x.registered {
      ErrorFrom(x, ri, 1, e);
    }
  }

  /** Whatever the schedule: the first error is that of a worker, its provider missing or
      the first of its calls that gave no review. */
  lemma {:induction false} FirstErrorIsAWorkers(x: Input, turns: seq<nat>)
    requires x.proposals != []
    ensures var s := Schedule(x, Begin(x), turns);
            s.board.firstErr.Some? ==>
              exists ri :: 0 <= ri < |x.reviewers| && FailsWith(x, ri, s.board.firstErr.value)
  {
    if turns != [] {
      var s, w := Schedule(x, Begin(x), turns[..|turns| - 1]), turns[|turns| - 1];
      FirstErrorIsAWorkers(x, turns[..|turns| - 1]);
      if CanAct(x, s, w) {
        var a := Actions(x, w)[s.done[w]];
        if a.Report? {
          WorkerError(x, w, a.error);
        }
      }
    }
  }

  // -------------------------------------------------- every schedule

  lemma {:induction false} ActionsFromAreOwn(x: Input, ri: nat, offset: nat)
    requires x.proposals != [] && ri < |x.reviewers|
    ensures forall a :: a in ActionsFrom(x, ri, offset) && a.Add? ==> a.reviewer == ri
    decreases |x.proposals| + 1 - offset
  {
    if offset <= |x.proposals| {
      ActionsFromAreOwn(x, ri, offset + 1);
    }
  }

  function Done(x: Input, s: Progress, ri: nat): seq<Action>
    requires x.proposals != [] && ri < |s.done| == |x.reviewers| && s.done[ri] <= |Actions(x, ri)|
  {
    Actions(x, ri)[..s.done[ri]]
  }

  predicate Orderly(x: Input, s: Progress)
    requires x.proposals != []
  {
    |s.done| == |x.reviewers| && forall w :: 0 <= w < |s.done| ==> s.done[w] <= |Actions(x, w)|
  }

  /** The board holds exactly what the workers did, each in its own order. */
  predicate CountOk(x: Input, s: Progress, ri: nat, pi: nat)
    requires x.proposals != [] && Orderly(x, s)
  {
    multiset(s.board.added)[(ri, pi)] == if ri < |s.done| then TimesAdded(Done(x, s, ri), ri, pi) else 0
  }

  predicate ErrorsOk(x: Input, s: Progress)
    requires x.proposals != [] && Orderly(x, s)
  {
    s.board.firstErr.Some? <==> exists w :: 0 <= w < |s.done| && Reports(Done(x, s, w))
  }

  ghost predicate BoardOk(x: Input, s: Progress)
    requires x.proposals != []
  {
    Orderly(x, s) && ErrorsOk(x, s) && forall ri, pi :: CountOk(x, s, ri, pi)
  }

  lemma DoneGrows(x: Input, s: Progress, w: nat)
    requires x.proposals != [] && Orderly(x, s) && CanAct(x, s, w)
    ensures Orderly(x, Turn(x, s, w))
    ensures Done(x, Turn(x, s, w), w) == Done(x, s, w) + [Actions(x, w)[s.done[w]]]
    ensures forall v :: 0 <= v < |s.done| && v != w ==> Done(x, Turn(x, s, w), v) == Done(x, s, v)
  {
  }

  lemma ActCounts(b: Board, a: Action, ri: nat, pi: nat)
    ensures multiset(Act(b, a).added)[(ri, pi)] == multiset(b.added)[(ri, pi)] + if a == Add(ri, pi) then 1 else 0
  {
  }

  lemma TimesAddedAppend(actions: seq<Action>, a: Action, ri: nat, pi: nat)
    ensures TimesAdded(actions + [a], ri, pi) == TimesAdded(actions, ri, pi) + if a == Add(ri, pi) then 1 else 0
  {
  }

  lemma TurnKeepsCount(x: Input, s: Progress, w: nat, ri: nat, pi: nat)
    requires x.proposals != [] && Orderly(x, s) && CanAct(x, s, w) && CountOk(x, s, ri, pi)
    ensures Orderly(x, Turn(x, s, w)) && CountOk(x, Turn(x, s, w), ri, pi)
  {
    DoneGrows(x, s, w);
    ActionsFromAreOwn(x, w, 1);
    var a := Actions(x, w)[s.done[w]];
    assert a in Actions(x, w);
    ActCounts(s.board, a, ri, pi);
    TimesAddedAppend(Done(x, s, w), a, ri, pi);
  }

  lemma ReportsAppend(actions: seq<Action>, a: Action)
    ensures Reports(actions + [a]) <==> Reports(actions) || a.Report?
  {
    if Reports(actions) {
      var k :| 0 <= k < |actions| && actions[k].Report?;
      assert (actions + [a])[k].Report?;
    }
    if a.Report? {
      assert (actions + [a])[|actions|].Report?;
    }
  }

  lemma TurnKeepsErrors(x: Input, s: Progress, w: nat)
    requires x.proposals != [] && Orderly(x, s) && CanAct(x, s, w) && ErrorsOk(x, s)
    ensures Orderly(x, Turn(x, s, w)) && ErrorsOk(x, Turn(x, s, w))
  {
    var s' := Turn(x, s, w);
    DoneGrows(x, s, w);
    ReportsAppend(Done(x, s, w), Actions(x, w)[s.done[w]]);
    if s.board.firstErr.Some? {
      var v :| 0 <= v < |s.done| && Reports(Done(x, s, v));
      assert Reports(Done(x, s', v));
    }
    if Actions(x, w)[s.done[w]].Report? {
      assert Reports(Done(x, s', w));
    } else if exists v :: 0 <= v < |s'.done| && Reports(Done(x, s', v)) {
      var v :| 0 <= v < |s'.done| && Reports(Done(x, s', v));
      assert Reports(Done(x, s, v));
    }
  }

  lemma {:induction false} SchedulesKeepBoard(x: Input, turns: seq<nat>)
    requires x.proposals != []
    ensures BoardOk(x, Schedule(x, Begin(x), turns))
  {
    if turns == [] {
      assert forall w :: 0 <= w < |x.reviewers| ==> Done(x, Begin(x), w) == [];
    } else {
      var s, w := Schedule(x, Begin(x), turns[..|turns| - 1]), turns[|turns| - 1];
      SchedulesKeepBoard(x, turns[..|turns| - 1]);
      if CanAct(x, s, w) {
        TurnKeepsErrors(x, s, w);
        forall ri, pi ensures CountOk(x, Turn(x, s, w), ri, pi) {
          TurnKeepsCount(x, s, w, ri, pi);
        }
      }
    }
  }

  predicate AllAnswered(x: Input) { forall ri :: 0 <= ri < |x.reviewers| ==> Answered(x, ri) }

  /** Whatever the schedule: no error is reported exactly when every worker can review
      all it should, and then every reviewer has reviewed each proposal with another
      seat id exactly once, and none with its own. */
  lemma ReviewCoverage(x: Input, turns: seq<nat>, ri: nat, pi: nat)
    requires x.proposals != [] && Complete(x, Schedule(x, Begin(x), turns))
    ensures var b := Schedule(x, Begin(x), turns).board;
            && (b.firstErr.None? <==> AllAnswered(x))
            && (AllAnswered(x) ==>
                  multiset(b.added)[(ri, pi)]
                  == if Foreign(x, ri, pi) then 1 else 0)
  {
    var s := Schedule(x, Begin(x), turns);
    SchedulesKeepBoard(x, turns);
    assert forall w :: 0 <= w < |s.done| ==> Done(x, s, w) == Actions(x, w);
    forall w | 0 <= w < |x.reviewers| ensures Reports(Done(x, s, w)) <==> !Answered(x, w) {
      WorkerCoverage(x, w, pi);
    }
    assert CountOk(x, s, ri, pi);
    if ri < |x.reviewers| {
      WorkerCoverage(x, ri, pi);
    }
  }

  lemma CountAtEnd(x: Input, turns: seq<nat>, ri: nat, pi: nat)
    requires x.proposals != [] && Complete(x, Schedule(x, Begin(x), turns))
    ensures multiset(Schedule(x, Begin(x), turns).board.added)[(ri, pi)]
            == if ri < |x.reviewers| then TimesAdded(Actions(x, ri), ri, pi) else 0
  {
    var s := Schedule(x, Begin(x), turns);
    SchedulesKeepBoard(x, turns);
    assert CountOk(x, s, ri, pi);
    if ri < |x.reviewers| {
      assert Done(x, s, ri) == Actions(x, ri);
    }
  }

  lemma SamePairs(a: multiset<(nat, nat)>, b: multiset<(nat, nat)>)
    requires forall i: nat, j: nat :: a[(i, j)] == b[(i, j)]
    ensures a == b
  {
    forall p: (nat, nat) ensures a[p] == b[p] {
      assert p == (p.0, p.1);
    }
  }

  /** The reviews added, as a multiset, and whether there is an error do not depend on
      the schedule. */
  lemma SchedulesAgree(x: Input, turns: seq<nat>, others: seq<nat>)
    requires x.proposals != []
    requires Complete(x, Schedule(x, Begin(x), turns)) && Complete(x, Schedule(x, Begin(x), others))
    ensures var b, c := Schedule(x, Begin(x), turns).board, Schedule(x, Begin(x), others).board;
            multiset(b.added) == multiset(c.added) && b.firstErr.None? == c.firstErr.None?
  {
    var b, c := Schedule(x, Begin(x), turns).board, Schedule(x, Begin(x), others).board;
    forall i: nat, j: nat ensures multiset(b.added)[(i, j)] == multiset(c.added)[(i, j)] {
      CountAtEnd(x, turns, i, j);
      CountAtEnd(x, others, i, j);
    }
    SamePairs(multiset(b.added), multiset(c.added));
    ReviewCoverage(x, turns, 0, 0);
    ReviewCoverage(x, others, 0, 0);
  }

  /** Two reviews that name the same alias are of the same proposal. */
  lemma AliasNamesProposal(x: Input, ri: nat, pi: nat, rj: nat, pj: nat)
    requires ri < |x.reviewers| && x.answer(ri, pi).Reviewed? && rj < |x.reviewers| && x.answer(rj, pj).Reviewed?
    requires ReviewOf(x, ri, pi).value.proposalAlias == ReviewOf(x, rj, pj).value.proposalAlias
    ensures pi == pj
  {
    Alias.AliasIsInjective(pi, pj);
  }

  /** The workers one after another, which is one complete schedule. */
  method ReviewAll(x: Input) returns (r: Result<seq<Generated>, Error>, ghost turns: seq<nat>)
    ensures x.proposals == [] || x.reviewers == [] ==> r == Err(Required)
    ensures x.proposals != [] && x.reviewers != [] ==>
              && Complete(x, Schedule(x, Begin(x), turns))
              && var b := Schedule(x, Begin(x), turns).board;
                 if b.firstErr.Some? then r == Err(b.firstErr.value)
                 else
                   && r.Ok? && |r.value| == |b.added|
                   && forall k :: 0 <= k < |b.added| ==> Reviews(x, b.added[k].0, b.added[k].1, r.value[k])
  {
    turns := [];
    if x.proposals == [] || x.reviewers == [] {
      return Err(Required), turns;
    }
    var reviewing := new Reviewing(x);
    var ri := 0;
    while ri < |x.reviewers|
      invariant ri <= |x.reviewers| && reviewing.x == x && reviewing.Valid()
      invariant var s := Schedule(x, Begin(x), turns);
                && |s.done| == |x.reviewers| && s.board == reviewing.Shared()
                && (forall w :: 0 <= w < ri ==> s.done[w] == |Actions(x, w)|)
                && (forall w :: ri <= w < |s.done| ==> s.done[w] == 0)
    {
      ghost var s := Schedule(x, Begin(x), turns);
      ghost var more := WorkerAlone(x, s, ri);
      assert Actions(x, ri)[0..] == Actions(x, ri);
      ScheduleAppend(x, Begin(x), turns, more);
      turns := turns + more;
      reviewing.Work(ri);
      ri := ri + 1;
    }
    if reviewing.firstErr.Some? {
      return Err(reviewing.firstErr.value), turns;
    }
    return Ok(reviewing.results), turns;
  }
}
