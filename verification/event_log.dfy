/** The event log of runs: numbered appends, pages after a cursor, and the event stream
    that a client resumes from the last id it received. */
module EventLog {
  import opened Ordered

  datatype Payload = Payload(kind: string, data: string)

  /** Rows by run and sequence. */
  type Rows = map<(string, int), Payload>

  datatype Event = Event(sequence: int, payload: Payload)

  const DEFAULT_LIMIT: nat := 100
  const STREAM_LIMIT: nat := 200

  function Sequences(rows: Rows, run: string): set<int> { set key | key in rows && key.0 == run :: key.1 }

  /** The largest sequence of the run, or 0. */
  function Last(rows: Rows, run: string): int {
    var order := Sorted(Sequences(rows, run));
    if order == [] then 0 else order[|order| - 1]
  }

  function Appended(rows: Rows, run: string, p: Payload): Rows { rows[(run, Last(rows, run) + 1) := p] }

  function Later(rows: Rows, run: string, after: int): seq<int> {
    Sorted(set n | n in Sequences(rows, run) && n > after)
  }

  function Page(rows: Rows, run: string, after: int, limit: int): seq<int> {
    var size: nat := if limit <= 0 then DEFAULT_LIMIT else limit;
    var later := Later(rows, run, after);
    if |later| <= size then later else later[..size]
  }

  class EventRepository {
    var rows: Rows

    constructor ()
      ensures rows == map[]
    {
      rows := map[];
    }

    method Append(run: string, p: Payload) returns (e: Event)
      modifies this
      ensures rows == Appended(old(rows), run, p)
      ensures e == Event(Last(old(rows), run) + 1, p)
    {
      var last := Last(rows, run);
      rows := rows[(run, last + 1) := p];
      return Event(last + 1, p);
    }

    method After(run: string, after: int, limit: int) returns (out: seq<Event>)
      ensures var page := Page(rows, run, after, limit);
              |out| == |page|
              && forall k :: 0 <= k < |page| ==>
                   (run, page[k]) in rows && out[k] == Event(page[k], rows[(run, page[k])])
    {
      var page := Page(rows, run, after, limit);
      out := [];
      for i := 0 to |page|
        invariant |out| == i
        invariant forall k :: 0 <= k < i ==> (run, page[k]) in rows && out[k] == Event(page[k], rows[(run, page[k])])
      {
        assert page[i] in Later(rows, run, after);
        out := out + [Event(page[i], rows[(run, page[i])])];
      }
    }

    /** The events handler's output for a cursor: a page of the log, or `remembered`
        when the log cannot be read, without what the cursor has passed. */
    method Stream(run: string, after: int, remembered: seq<Event>, readable: bool) returns (sent: seq<Event>)
      ensures readable ==>
                var page := Page(rows, run, after, STREAM_LIMIT);
                |sent| == |page|
                && forall k :: 0 <= k < |page| ==>
                     (run, page[k]) in rows && sent[k] == Event(page[k], rows[(run, page[k])])
      ensures !readable ==> sent == Passed(remembered, after)
    {
      var events := remembered;
      if readable {
        var persisted := After(run, after, STREAM_LIMIT);
        events := persisted;
      }
      sent := [];
      for i := 0 to |events|
        invariant sent == Passed(events[..i], after)
      {
        assert events[..i + 1][..i] == events[..i];
        if events[i].sequence > after {
          sent := sent + [events[i]];
        }
      }
      assert events[..|events|] == events;
      if readable {
        forall k | 0 <= k < |events| ensures events[k].sequence > after {
          assert events[k].sequence in Later(rows, run, after);
        }
        AllPassed(events, after);
      }
    }
  }

  /** The events beyond the cursor, in order. */
  function Passed(events: seq<Event>, after: int): seq<Event> {
    if events == [] then []
    else
      Passed(events[..|events| - 1], after)
      + if events[|events| - 1].sequence > after then [events[|events| - 1]] else []
  }

  lemma {:induction false} AllPassed(events: seq<Event>, after: int)
    requires forall k :: 0 <= k < |events| ==> events[k].sequence > after
    ensures Passed(events, after) == events
  {
    if events != [] {
      AllPassed(events[..|events| - 1], after);
    }
  }

  // ---------------------------------------------------- writers and a reader

  /** A client following one run: what it received, whose last id is its cursor. */
  datatype Reader = Reader(run: string, received: seq<Event>)

  /** `remembered` are the events of the reader's run appended since the last restart. */
  datatype World = World(rows: Rows, remembered: seq<Event>, reader: Reader)

  /** A poll asks for a page of any limit and is cut off after `delivered` events; when the
      log cannot be read, it is answered from what is remembered. */
  datatype Step =
    | Write(run: string, payload: Payload)
    | Poll(limit: int, delivered: nat)
    | Fallback(delivered: nat)
    | Restart

  function Cursor(r: Reader): int { if r.received == [] then 0 else r.received[|r.received| - 1].sequence }

  function Fetch(rows: Rows, run: string, page: seq<int>): (r: seq<Event>)
    requires forall k :: 0 <= k < |page| ==> (run, page[k]) in rows
    ensures |r| == |page| && forall k :: 0 <= k < |page| ==> r[k] == Event(page[k], rows[(run, page[k])])
  {
    if page == [] then []
    else Fetch(rows, run, page[..|page| - 1]) + [Event(page[|page| - 1], rows[(run, page[|page| - 1])])]
  }

  lemma PageIsInRows(rows: Rows, run: string, after: int, limit: int)
    ensures var page := Page(rows, run, after, limit); forall k :: 0 <= k < |page| ==> (run, page[k]) in rows
  {
    var page := Page(rows, run, after, limit);
    forall k | 0 <= k < |page| ensures (run, page[k]) in rows {
      assert page[k] in Later(rows, run, after);
    }
  }

  function Take<T>(s: seq<T>, n: nat): seq<T> { if |s| <= n then s else s[..n] }

  function Do(w: World, st: Step): World {
    match st
    case Write(run, p) =>
      var e := Event(Last(w.rows, run) + 1, p);
      w.(rows := Appended(w.rows, run, p), remembered := w.remembered + if run == w.reader.run then [e] else [])
    case Restart => w.(remembered := [])
    case Fallback(delivered) =>
      var events := Passed(w.remembered, Cursor(w.reader));
      w.(reader := w.reader.(received := w.reader.received + Take(events, delivered)))
    case Poll(limit, delivered) =>
      var r := w.reader;
      PageIsInRows(w.rows, r.run, Cursor(r), limit);
      var page := Fetch(w.rows, r.run, Page(w.rows, r.run, Cursor(r), limit));
      w.(reader := r.(received := r.received + Take(page, delivered)))
  }

  function Run(w: World, steps: seq<Step>): World {
    if steps == [] then w else Do(Run(w, steps[..|steps| - 1]), steps[|steps| - 1])
  }

  // ------------------------------------------------------------ contiguity

  /** The run's rows are numbered 1 to n. */
  ghost predicate Contiguous(rows: Rows, run: string, n: nat) {
    forall k :: (run, k) in rows <==> 1 <= k <= n
  }

  lemma LastOfContiguous(rows: Rows, run: string, n: nat)
    requires Contiguous(rows, run, n)
    ensures Last(rows, run) == n
  {
    SequencesAreRange(rows, run, n);
    SortedRange(1, n + 1);
  }

  lemma SequencesAreRange(rows: Rows, run: string, n: nat)
    requires Contiguous(rows, run, n)
    ensures Sequences(rows, run) == Range(1, n + 1)
  {
    forall k ensures k in Sequences(rows, run) <==> k in Range(1, n + 1) {
      assert k in Sequences(rows, run) <==> (run, k) in rows;
    }
  }

  lemma LaterIsRange(rows: Rows, run: string, n: nat, after: nat)
    requires Contiguous(rows, run, n) && after <= n
    ensures |Later(rows, run, after)| == n - after
    ensures forall k :: 0 <= k < n - after ==> Later(rows, run, after)[k] == after + 1 + k
  {
    SequencesAreRange(rows, run, n);
    assert (set k | k in Sequences(rows, run) && k > after) == Range(after + 1, n + 1);
    SortedRange(after + 1, n + 1);
  }

  lemma AppendIsContiguous(rows: Rows, run: string, p: Payload, other: string, n: nat, m: nat)
    requires Contiguous(rows, run, n) && Contiguous(rows, other, m)
    ensures Contiguous(Appended(rows, run, p), other, if other == run then m + 1 else m)
  {
    LastOfContiguous(rows, run, n);
    LastOfContiguous(rows, other, m);
  }

  // ---------------------------------------------------------- what is received

  function LogEvent(rows: Rows, run: string, n: int): Event
    requires (run, n) in rows
  {
    Event(n, rows[(run, n)])
  }

  /** Some number of rows, 1 on, and the reader has the first of them in order. */
  ghost predicate PrefixReceived(w: World, n: nat) {
    && Contiguous(w.rows, w.reader.run, n) && |w.reader.received| <= n
    && forall k :: 0 <= k < |w.reader.received| ==> w.reader.received[k] == LogEvent(w.rows, w.reader.run, k + 1)
  }

  /** What is remembered is the end of the run's log. */
  ghost predicate TailRemembered(w: World, n: nat) {
    && Contiguous(w.rows, w.reader.run, n) && |w.remembered| <= n
    && forall k :: 0 <= k < |w.remembered| ==>
         w.remembered[k] == LogEvent(w.rows, w.reader.run, n - |w.remembered| + 1 + k)
  }

  ghost predicate Numbered(rows: Rows, run: string) { exists n: nat :: Contiguous(rows, run, n) }

  ghost predicate AllContiguous(rows: Rows) { forall run :: Numbered(rows, run) }

  lemma WriteKeepsPrefix(w: World, run: string, p: Payload, n: nat)
    requires PrefixReceived(w, n) && TailRemembered(w, n) && AllContiguous(w.rows)
    ensures var n' := if run == w.reader.run then n + 1 else n;
            PrefixReceived(Do(w, Write(run, p)), n') && TailRemembered(Do(w, Write(run, p)), n')
  {
    assert Numbered(w.rows, run);
    var m: nat :| Contiguous(w.rows, run, m);
    AppendIsContiguous(w.rows, run, p, w.reader.run, m, n);
    LastOfContiguous(w.rows, run, m);
    LastOfContiguous(w.rows, w.reader.run, n);
  }

  /** A poll from the last id received goes on where the reader stopped. */
  lemma PollContinues(w: World, limit: int, n: nat)
    requires PrefixReceived(w, n)
    ensures var got := |w.reader.received|;
            var page := Page(w.rows, w.reader.run, Cursor(w.reader), limit);
            && Cursor(w.reader) == got
            && |page| <= n - got && (got < n ==> page != [])
            && forall k :: 0 <= k < |page| ==> page[k] == got + 1 + k
  {
    LaterIsRange(w.rows, w.reader.run, n, |w.reader.received|);
  }

  lemma PollKeepsPrefix(w: World, limit: int, delivered: nat, n: nat)
    requires PrefixReceived(w, n)
    ensures PrefixReceived(Do(w, Poll(limit, delivered)), n)
  {
    PollContinues(w, limit, n);
    PageIsInRows(w.rows, w.reader.run, Cursor(w.reader), limit);
  }

  // -------------------------------------------------- when the log is not read

  function Skipped(remembered: nat, first: int, got: nat): nat {
    if got < first then 0 else if got - first + 1 < remembered then got - first + 1 else remembered
  }

  lemma SliceNext(events: seq<Event>, skip: nat)
    requires skip < |events|
    ensures events[..|events| - 1][skip..] + [events[|events| - 1]] == events[skip..]
  {
  }

  /** Of events numbered on from `first`, those beyond the cursor. */
  lemma {:induction false} PassedOfTail(events: seq<Event>, first: int, after: int)
    requires forall k :: 0 <= k < |events| ==> events[k].sequence == first + k
    requires after >= 0
    ensures Passed(events, after) == events[Skipped(|events|, first, after)..]
  {
    if events != [] {
      var init, last := events[..|events| - 1], events[|events| - 1];
      PassedOfTail(init, first, after);
      if last.sequence > after {
        SliceNext(events, Skipped(|events|, first, after));
      }
    }
  }

  /** What is remembered begins no later than one past the cursor. */
  predicate NoGap(w: World) { w.remembered == [] || w.remembered[0].sequence <= Cursor(w.reader) + 1 }

  lemma CursorIsCount(w: World, n: nat)
    requires PrefixReceived(w, n)
    ensures Cursor(w.reader) == |w.reader.received|
  {
  }

  lemma FallbackSends(w: World, n: nat)
    requires PrefixReceived(w, n) && TailRemembered(w, n)
    ensures var got := |w.reader.received|;
            Passed(w.remembered, Cursor(w.reader))
            == w.remembered[Skipped(|w.remembered|, n - |w.remembered| + 1, got)..]
  {
    CursorIsCount(w, n);
    PassedOfTail(w.remembered, n - |w.remembered| + 1, |w.reader.received|);
  }

  lemma PrefixExtends(w: World, sent: seq<Event>, n: nat)
    requires PrefixReceived(w, n) && |w.reader.received| + |sent| <= n
    requires forall k :: 0 <= k < |sent| ==> sent[k] == LogEvent(w.rows, w.reader.run, |w.reader.received| + 1 + k)
    ensures PrefixReceived(w.(reader := w.reader.(received := w.reader.received + sent)), n)
  {
  }

  /** A stretch of what is remembered is a stretch of the log. */
  lemma RememberedStretch(w: World, n: nat, skip: nat, sent: seq<Event>)
    requires TailRemembered(w, n) && skip + |sent| <= |w.remembered| && sent == w.remembered[skip..skip + |sent|]
    ensures forall k :: 0 <= k < |sent| ==>
              sent[k] == LogEvent(w.rows, w.reader.run, n - |w.remembered| + skip + 1 + k)
  {
  }

  lemma NoGapSkip(w: World, n: nat)
    requires PrefixReceived(w, n) && TailRemembered(w, n) && NoGap(w)
    ensures var skip := Skipped(|w.remembered|, n - |w.remembered| + 1, |w.reader.received|);
            skip == |w.remembered| || n - |w.remembered| + skip == |w.reader.received|
  {
    CursorIsCount(w, n);
  }

  lemma SafeStretch(w: World, n: nat, delivered: nat, sent: seq<Event>)
    requires PrefixReceived(w, n) && TailRemembered(w, n) && NoGap(w)
    requires var skip := Skipped(|w.remembered|, n - |w.remembered| + 1, |w.reader.received|);
             sent == Take(w.remembered[skip..], delivered)
    ensures |w.reader.received| + |sent| <= n
    ensures forall k :: 0 <= k < |sent| ==> sent[k] == LogEvent(w.rows, w.reader.run, |w.reader.received| + 1 + k)
  {
    var skip := Skipped(|w.remembered|, n - |w.remembered| + 1, |w.reader.received|);
    NoGapSkip(w, n);
    RememberedStretch(w, n, skip, sent);
  }

  /** What a poll without a gap delivers continues what was received. */
  lemma SafeSent(w: World, n: nat, delivered: nat, sent: seq<Event>)
    requires PrefixReceived(w, n) && TailRemembered(w, n) && NoGap(w)
    requires sent == Take(Passed(w.remembered, Cursor(w.reader)), delivered)
    ensures PrefixReceived(w.(reader := w.reader.(received := w.reader.received + sent)), n)
  {
    FallbackSends(w, n);
    SafeStretch(w, n, delivered, sent);
    PrefixExtends(w, sent, n);
  }

  lemma SafeFallback(w: World, delivered: nat, n: nat)
    requires PrefixReceived(w, n) && TailRemembered(w, n) && NoGap(w)
    ensures PrefixReceived(Do(w, Fallback(delivered)), n)
  {
    SafeSent(w, n, delivered, Take(Passed(w.remembered, Cursor(w.reader)), delivered));
  }

  lemma GapFallback(w: World, delivered: nat, n: nat)
    requires PrefixReceived(w, n) && TailRemembered(w, n) && delivered > 0 && !NoGap(w)
    ensures var received := Do(w, Fallback(delivered)).reader.received;
            |received| > |w.reader.received|
            && received[|w.reader.received|].sequence > |w.reader.received| + 1
  {
    CursorIsCount(w, n);
    FallbackSends(w, n);
  }

  /** Answered from what is remembered, a reader goes on where it stopped or, exactly when
      something is delivered across a gap, loses the events in between. */
  lemma FallbackContinues(w: World, delivered: nat, n: nat)
    requires PrefixReceived(w, n) && TailRemembered(w, n)
    ensures PrefixReceived(Do(w, Fallback(delivered)), n) <==> delivered == 0 || NoGap(w)
    ensures delivered != 0 && !NoGap(w) ==> !InOrder(Do(w, Fallback(delivered)).reader.received)
  {
    if delivered != 0 && !NoGap(w) {
      GapFallback(w, delivered, n);
    } else if NoGap(w) {
      SafeFallback(w, delivered, n);
    } else {
      assert w.reader.received + [] == w.reader.received;
    }
  }

  /** The k-th event received is the k-th of the log. */
  predicate InOrder(received: seq<Event>) { forall k :: 0 <= k < |received| ==> received[k].sequence == k + 1 }

  /** Nothing is delivered across a gap. */
  predicate Safe(w: World, st: Step) { st.Fallback? && st.delivered > 0 ==> NoGap(w) }

  /** No poll of the run was answered across a gap. */
  predicate Gapless(run: string, steps: seq<Step>) {
    steps != [] ==>
      var init, last := steps[..|steps| - 1], steps[|steps| - 1];
      Gapless(run, init) && Safe(Run(Start(run), init), last)
  }

  lemma StepKeepsContiguous(w: World, st: Step)
    requires AllContiguous(w.rows)
    ensures AllContiguous(Do(w, st).rows)
  {
    if st.Write? {
      forall run ensures Numbered(Do(w, st).rows, run) {
        assert Numbered(w.rows, st.run) && Numbered(w.rows, run);
        var m: nat :| Contiguous(w.rows, st.run, m);
        var n: nat :| Contiguous(w.rows, run, n);
        if run == st.run {
          AppendIsContiguous(w.rows, st.run, st.payload, run, m, m);
        } else {
          AppendIsContiguous(w.rows, st.run, st.payload, run, m, n);
        }
      }
    }
  }

  function Start(run: string): World { World(map[], [], Reader(run, [])) }

  lemma ReceivedGrows(w: World, st: Step)
    ensures w.reader.received <= Do(w, st).reader.received && Do(w, st).reader.run == w.reader.run
  {
  }

  lemma ReadStepKeepsTail(w: World, st: Step, n: nat)
    requires TailRemembered(w, n) && !st.Write?
    ensures TailRemembered(Do(w, st), n)
  {
  }

  /** The run of the reader, contiguous rows, and a remembered tail, whatever was polled. */
  ghost predicate LogOk(w: World, run: string, n: nat) {
    AllContiguous(w.rows) && w.reader.run == run && TailRemembered(w, n)
  }

  lemma WriteKeepsTail(w: World, run: string, p: Payload, n: nat)
    requires TailRemembered(w, n) && AllContiguous(w.rows)
    ensures TailRemembered(Do(w, Write(run, p)), if run == w.reader.run then n + 1 else n)
  {
    assert Numbered(w.rows, run);
    var m: nat :| Contiguous(w.rows, run, m);
    AppendIsContiguous(w.rows, run, p, w.reader.run, m, n);
    LastOfContiguous(w.rows, run, m);
    LastOfContiguous(w.rows, w.reader.run, n);
  }

  lemma PrefixIsInOrder(w: World, n: nat)
    requires PrefixReceived(w, n)
    ensures InOrder(w.reader.received)
  {
  }

  lemma DisorderStays(received: seq<Event>, received': seq<Event>)
    requires !InOrder(received) && received <= received'
    ensures !InOrder(received')
  {
  }

  /** The number of the run's events after a step. */
  function Count(w: World, st: Step, n: nat): nat { if st.Write? && st.run == w.reader.run then n + 1 else n }

  lemma StepKeepsLog(w: World, st: Step, run: string, n: nat)
    requires LogOk(w, run, n)
    ensures LogOk(Do(w, st), run, Count(w, st, n))
  {
    StepKeepsContiguous(w, st);
    ReceivedGrows(w, st);
    if st.Write? {
      WriteKeepsTail(w, st.run, st.payload, n);
    } else {
      ReadStepKeepsTail(w, st, n);
    }
  }

  /** A step keeps the prefix exactly when it is safe, and disorder for good. */
  lemma StepOnPrefix(w: World, st: Step, run: string, n: nat)
    requires LogOk(w, run, n) && PrefixReceived(w, n)
    ensures Safe(w, st) ==> PrefixReceived(Do(w, st), Count(w, st, n))
    ensures !Safe(w, st) ==> !InOrder(Do(w, st).reader.received)
  {
    match st
    case Write(r, p) => WriteKeepsPrefix(w, r, p, n);
    case Poll(limit, delivered) => PollKeepsPrefix(w, limit, delivered, n);
    case Fallback(delivered) => FallbackContinues(w, delivered, n);
    case Restart =>
  }

  /** A prefix has been received, or, after a gap, the order is lost. */
  ghost predicate Reads(w: World, n: nat, gapless: bool) {
    if gapless then PrefixReceived(w, n) else !InOrder(w.reader.received)
  }

  lemma {:induction false} RunReads(run: string, steps: seq<Step>) returns (n: nat)
    ensures LogOk(Run(Start(run), steps), run, n) && Reads(Run(Start(run), steps), n, Gapless(run, steps))
  {
    if steps == [] {
      n := 0;
      forall r ensures Numbered(map[], r) {
        assert Contiguous(map[], r, 0);
      }
    } else {
      var init, st := steps[..|steps| - 1], steps[|steps| - 1];
      var before := RunReads(run, init);
      var w := Run(Start(run), init);
      n := Count(w, st, before);
      StepKeepsLog(w, st, run, before);
      if Gapless(run, init) {
        StepOnPrefix(w, st, run, before);
      } else {
        ReceivedGrows(w, st);
        DisorderStays(w.reader.received, Do(w, st).reader.received);
      }
    }
  }

  /** At every moment of every run of writers, restarts and a reader, with any page limits
      and any disconnects: each run's events are numbered from 1 without a gap, and what
      the reader has received is a prefix of its run's log, each event once and in order,
      if and only if no poll was answered from what is remembered across a gap. */
  lemma ReaderHasPrefix(run: string, steps: seq<Step>) returns (n: nat)
    ensures LogOk(Run(Start(run), steps), run, n)
    ensures PrefixReceived(Run(Start(run), steps), n) <==> Gapless(run, steps)
  {
    n := RunReads(run, steps);
    if PrefixReceived(Run(Start(run), steps), n) {
      PrefixIsInOrder(Run(Start(run), steps), n);
    }
  }

  /** A poll that is not cut off brings the reader as far as its page reaches, and at
      least one event further while there is one. */
  lemma FullPollAdvances(run: string, steps: seq<Step>, limit: int, n: nat)
    requires Gapless(run, steps) && Contiguous(Run(Start(run), steps).rows, run, n)
    ensures var w := Run(Start(run), steps);
            var size := if limit <= 0 then 100 else limit;
            var got := |w.reader.received|;
            |Do(w, Poll(limit, size)).reader.received| == if n - got <= size then n else got + size
  {
    var w := Run(Start(run), steps);
    var m := ReaderHasPrefix(run, steps);
    LastOfContiguous(w.rows, run, n);
    LastOfContiguous(w.rows, run, m);
    LaterIsRange(w.rows, run, n, |w.reader.received|);
  }
}
