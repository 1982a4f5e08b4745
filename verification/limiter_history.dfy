/** Every interleaving of login attempts and their completions under a clock that never
    runs backwards. An attempt completes at most once, and only if it was admitted. */
module LimiterHistory {
  import opened Limiter

  datatype Event = Failure(ip: Ip, at: Time) | Success(ip: Ip)

  /** `open` are the admitted attempts not yet completed. */
  datatype World = World(state: State, open: map<nat, Ip>, now: Time, history: seq<Event>)

  datatype Step =
    | Attempt(attempt: nat, ip: Ip, readings: map<Ip, Time>, at: Time)
    | Finish(attempt: nat, failed: bool, readings: map<Ip, Time>, at: Time)

  function Start(now: Time): World { World(State(map[], map[]), map[], now, []) }

  predicate Possible(w: World, st: Step) {
    ReadingsIn(st.readings, w.state.failures, w.now, st.at) && (st.attempt in w.open <==> st.Finish?)
  }

  /** A step that is not possible changes nothing. */
  function Do(w: World, st: Step): World {
    if !Possible(w, st) then w
    else
      match st
      case Attempt(a, ip, readings, at) =>
        var (s, ok) := Admit(w.state, ip, readings);
        World(s, if ok then w.open[a := ip] else w.open, at, w.history)
      case Finish(a, failed, readings, at) =>
        var ip := w.open[a];
        World(Complete(w.state, ip, failed, readings, at), w.open - {a}, at,
              w.history + [if failed then Failure(ip, at) else Success(ip)])
  }

  function Run(w: World, steps: seq<Step>): World {
    if steps == [] then w else Do(Run(w, steps[..|steps| - 1]), steps[|steps| - 1])
  }

  // ------------------------------------------------------------- capacity

  function OpenOf(open: map<nat, Ip>, ip: Ip): set<nat> { set a | a in open && open[a] == ip }

  /** One address: its places, and its reservations against its open attempts. */
  predicate PlacesOk(w: World, ip: Ip) {
    && |Failures(w.state, ip)| + Pending(w.state, ip) <= ATTEMPT_LIMIT
    && Pending(w.state, ip) == |OpenOf(w.open, ip)|
    && (ip in w.state.pending ==> w.state.pending[ip] > 0)
    && (ip in w.state.failures ==> w.state.failures[ip] != [])
  }

  lemma OpenOfAdded(open: map<nat, Ip>, a: nat, ip: Ip, other: Ip)
    requires a !in open
    ensures OpenOf(open[a := ip], other) == OpenOf(open, other) + if other == ip then {a} else {}
  {
  }

  lemma OpenOfRemoved(open: map<nat, Ip>, a: nat, other: Ip)
    requires a in open
    ensures OpenOf(open - {a}, other) == OpenOf(open, other) - if other == open[a] then {a} else {}
    ensures other == open[a] ==> a in OpenOf(open, other)
  {
  }

  lemma PruneKeepsPlaces(w: World, readings: map<Ip, Time>, ip: Ip)
    requires PlacesOk(w, ip)
    ensures PlacesOk(w.(state := w.state.(failures := Prune(w.state.failures, readings))), ip)
  {
  }

  lemma AttemptKeepsPlaces(w: World, st: Step, ip: Ip)
    requires PlacesOk(w, ip) && st.Attempt?
    ensures PlacesOk(Do(w, st), ip)
  {
    if Possible(w, st) {
      OpenOfAdded(w.open, st.attempt, st.ip, ip);
      PruneKeepsPlaces(w, st.readings, ip);
    }
  }

  lemma FinishKeepsPlaces(w: World, st: Step, ip: Ip)
    requires PlacesOk(w, ip) && st.Finish?
    ensures PlacesOk(Do(w, st), ip)
  {
    if Possible(w, st) {
      OpenOfRemoved(w.open, st.attempt, ip);
      PruneKeepsPlaces(w, st.readings, ip);
    }
  }

  lemma SubsetIsNoLarger<T>(a: set<T>, b: set<T>)
    requires a <= b
    ensures |a| <= |b|
  {
    assert b == a + (b - a);
  }

  lemma PruneKeepsClients(s: State, readings: map<Ip, Time>)
    ensures Clients(s.(failures := Prune(s.failures, readings))) <= Clients(s)
  {
  }

  lemma ReserveAddsClient(s: State, ip: Ip)
    requires Reserve(s, ip).1
    ensures Clients(Reserve(s, ip).0) == Clients(s) + {ip}
  {
  }

  lemma ReserveNeedsRoom(s: State, ip: Ip)
    requires Reserve(s, ip).1 && (ip in s.pending ==> s.pending[ip] > 0)
    ensures ip in Clients(s) || |Clients(s)| < CLIENT_LIMIT
  {
  }

  lemma ReserveKeepsClients(s: State, ip: Ip)
    requires |Clients(s)| <= CLIENT_LIMIT && (ip in s.pending ==> s.pending[ip] > 0)
    ensures |Clients(Reserve(s, ip).0)| <= CLIENT_LIMIT
  {
    if Reserve(s, ip).1 {
      var clients := Clients(s);
      ReserveAddsClient(s, ip);
      ReserveNeedsRoom(s, ip);
      assert ip in clients ==> clients + {ip} == clients;
    }
  }

  lemma CompleteKeepsClients(s: State, ip: Ip, failed: bool, readings: map<Ip, Time>, at: Time)
    requires ip in s.pending
    ensures Clients(Complete(s, ip, failed, readings, at)) <= Clients(s)
  {
    PruneKeepsClients(s, readings);
  }

  lemma StepKeepsClients(w: World, st: Step)
    requires |Clients(w.state)| <= CLIENT_LIMIT && forall ip :: PlacesOk(w, ip)
    ensures |Clients(Do(w, st).state)| <= CLIENT_LIMIT
  {
    if Possible(w, st) {
      var pruned := w.state.(failures := Prune(w.state.failures, st.readings));
      match st
      case Attempt(_, ip, readings, _) =>
        PruneKeepsClients(w.state, readings);
        SubsetIsNoLarger(Clients(pruned), Clients(w.state));
        assert PlacesOk(w, ip);
        ReserveKeepsClients(pruned, ip);
      case Finish(a, failed, readings, at) =>
        var ip := w.open[a];
        assert PlacesOk(w, ip) && a in OpenOf(w.open, ip);
        CompleteKeepsClients(w.state, ip, failed, readings, at);
        SubsetIsNoLarger(Clients(Do(w, st).state), Clients(w.state));
    }
  }

  /** In every reachable state an address holds at most five places, recorded failures
      and reservations together; its reservations are its attempts under way, and no
      entry is left empty; and at most 1024 addresses are tracked. */
  lemma {:induction false} CapacityIsKept(now: Time, steps: seq<Step>)
    ensures var w := Run(Start(now), steps);
            (forall ip :: PlacesOk(w, ip)) && |Clients(w.state)| <= CLIENT_LIMIT
  {
    if steps != [] {
      var init, last := steps[..|steps| - 1], steps[|steps| - 1];
      CapacityIsKept(now, init);
      var w := Run(Start(now), init);
      forall ip ensures PlacesOk(Do(w, last), ip) {
        if last.Attempt? {
          AttemptKeepsPlaces(w, last, ip);
        } else {
          FinishKeepsPlaces(w, last, ip);
        }
      }
      StepKeepsClients(w, last);
    }
  }

  // ------------------------------------------------------- sliding window

  /** The times of the address's failures since its last success. */
  function Since(history: seq<Event>, ip: Ip): seq<Time> {
    if history == [] then []
    else
      var init, last := Since(history[..|history| - 1], ip), history[|history| - 1];
      if last.ip != ip then init else if last.Success? then [] else init + [last.at]
  }

  predicate Nondecreasing(ts: seq<Time>) { forall i, j :: 0 <= i < j < |ts| ==> ts[i] <= ts[j] }

  predicate Spread(ts: seq<Time>) { forall k :: 0 <= k && k + 5 < |ts| ==> ts[k + 5] - ts[k] >= MINUTE }

  /** The recorded failures are the last of those since the last success, and every one
      no longer recorded is a minute old. */
  predicate RecordOk(since: seq<Time>, recorded: seq<Time>, now: Time) {
    && |recorded| <= |since| && recorded == since[|since| - |recorded|..]
    && (forall t :: t in since ==> t <= now)
    && forall k :: 0 <= k < |since| - |recorded| ==> since[k] <= now - MINUTE
  }

  lemma {:induction false} RecentOfOld(ts: seq<Time>, now: Time)
    requires forall k :: 0 <= k < |ts| ==> ts[k] <= now - MINUTE
    ensures Recent(ts, now) == []
  {
    if ts != [] {
      RecentOfOld(ts[..|ts| - 1], now);
    }
  }

  lemma AppendSuffix(init: seq<Time>, recent: seq<Time>, last: Time)
    requires |recent| <= |init| && recent == init[|init| - |recent|..]
    ensures recent + [last] == (init + [last])[|init| - |recent|..]
  {
  }

  /** On times in order, pruning drops a first part that is a minute old. */
  lemma {:induction false} RecentIsSuffix(ts: seq<Time>, now: Time)
    requires Nondecreasing(ts)
    ensures Recent(ts, now) == ts[|ts| - |Recent(ts, now)|..]
    ensures forall k :: 0 <= k < |ts| - |Recent(ts, now)| ==> ts[k] <= now - MINUTE
  {
    if ts != [] {
      var init, last := ts[..|ts| - 1], ts[|ts| - 1];
      if last > now - MINUTE {
        RecentIsSuffix(init, now);
        AppendSuffix(init, Recent(init, now), last);
        assert ts == init + [last];
      } else {
        forall k | 0 <= k < |ts| ensures ts[k] <= now - MINUTE {
          assert k < |ts| - 1 ==> ts[k] <= ts[|ts| - 1];
        }
        RecentOfOld(ts, now);
      }
    }
  }

  lemma PruneKeepsRecord(since: seq<Time>, recorded: seq<Time>, now: Time, reading: Time)
    requires Nondecreasing(since) && RecordOk(since, recorded, now) && now <= reading
    ensures RecordOk(since, Recent(recorded, reading), reading)
  {
    RecentIsSuffix(recorded, reading);
    var dropped := |since| - |recorded|;
    forall k | 0 <= k < |since| - |Recent(recorded, reading)| ensures since[k] <= reading - MINUTE {
      if k >= dropped {
        assert since[k] == recorded[k - dropped];
      }
    }
  }

  lemma LaterKeepsRecord(since: seq<Time>, recorded: seq<Time>, now: Time, later: Time)
    requires RecordOk(since, recorded, now) && now <= later
    ensures RecordOk(since, recorded, later)
  {
  }

  /** A place is free only when the sixth last failure has been dropped. */
  lemma FailureKeepsSpread(since: seq<Time>, recorded: seq<Time>, at: Time)
    requires Nondecreasing(since) && Spread(since) && RecordOk(since, recorded, at) && |recorded| < ATTEMPT_LIMIT
    ensures Nondecreasing(since + [at]) && Spread(since + [at]) && RecordOk(since + [at], recorded + [at], at)
  {
    forall i | 0 <= i < |since| ensures since[i] <= at {
      assert since[i] in since;
    }
  }

  predicate HistoryOk(w: World, ip: Ip) {
    var since := Since(w.history, ip);
    Nondecreasing(since) && Spread(since) && RecordOk(since, Failures(w.state, ip), w.now)
  }

  lemma PrunedRecord(w: World, readings: map<Ip, Time>, at: Time, ip: Ip)
    requires HistoryOk(w, ip) && ReadingsIn(readings, w.state.failures, w.now, at)
    ensures var s := w.state.(failures := Prune(w.state.failures, readings));
            RecordOk(Since(w.history, ip), Failures(s, ip), at) && |Failures(s, ip)| <= |Failures(w.state, ip)|
  {
    var since := Since(w.history, ip);
    if ip in w.state.failures {
      PruneKeepsRecord(since, w.state.failures[ip], w.now, readings[ip]);
      LaterKeepsRecord(since, Recent(w.state.failures[ip], readings[ip]), readings[ip], at);
    } else {
      LaterKeepsRecord(since, [], w.now, at);
    }
  }

  lemma StepKeepsHistory(w: World, st: Step, ip: Ip)
    requires PlacesOk(w, ip) && HistoryOk(w, ip)
    ensures HistoryOk(Do(w, st), ip)
  {
    if Possible(w, st) {
      PrunedRecord(w, st.readings, st.at, ip);
      var pruned := w.state.(failures := Prune(w.state.failures, st.readings));
      var w' := Do(w, st);
      if st.Finish? {
        assert w'.history[..|w.history|] == w.history;
        if w.open[st.attempt] == ip && st.failed {
          assert st.attempt in OpenOf(w.open, ip);
          FailureKeepsSpread(Since(w.history, ip), Failures(pruned, ip), st.at);
        }
      }
    }
  }

  /** At every moment of every run: the failures of an address since its last success are
      recorded but for those a minute old, and each is a minute after the fifth before it. */
  lemma {:induction false} RecordIsKept(now: Time, steps: seq<Step>, ip: Ip)
    ensures HistoryOk(Run(Start(now), steps), ip)
  {
    if steps != [] {
      RecordIsKept(now, steps[..|steps| - 1], ip);
      CapacityIsKept(now, steps[..|steps| - 1]);
      StepKeepsHistory(Run(Start(now), steps[..|steps| - 1]), steps[|steps| - 1], ip);
    }
  }

  predicate Fails(e: Event, ip: Ip) { e.Failure? && e.ip == ip }

  predicate Succeeds(e: Event, ip: Ip) { e.Success? && e.ip == ip }

  function FailureCount(events: seq<Event>, ip: Ip): nat {
    if events == [] then 0
    else FailureCount(events[..|events| - 1], ip) + if Fails(events[|events| - 1], ip) then 1 else 0
  }

  /** Without a success in between, the failures of a stretch are the last ones recorded. */
  lemma {:induction false} SinceOverStretch(before: seq<Event>, stretch: seq<Event>, ip: Ip)
    requires forall e :: e in stretch ==> !Succeeds(e, ip)
    ensures |Since(before + stretch, ip)| == |Since(before, ip)| + FailureCount(stretch, ip)
    ensures Since(before, ip) <= Since(before + stretch, ip)
  {
    if stretch == [] {
      assert before + stretch == before;
    } else {
      var init, last := stretch[..|stretch| - 1], stretch[|stretch| - 1];
      assert last in stretch && forall e :: e in init ==> e in stretch;
      assert (before + stretch)[..|before + stretch| - 1] == before + init;
      SinceOverStretch(before, init, ip);
    }
  }

  lemma {:induction false} SpreadOfAll(now: Time, steps: seq<Step>, n: nat, ip: Ip)
    requires n <= |Run(Start(now), steps).history|
    ensures Spread(Since(Run(Start(now), steps).history[..n], ip))
    ensures Nondecreasing(Since(Run(Start(now), steps).history[..n], ip))
  {
    var h := Run(Start(now), steps).history;
    RecordIsKept(now, steps, ip);
    if n == |h| {
      assert h[..n] == h;
    } else {
      var init := steps[..|steps| - 1];
      assert Run(Start(now), init).history[..n] == h[..n];
      SpreadOfAll(now, init, n, ip);
    }
  }

  lemma SpreadEnds(ts: seq<Time>, first: nat)
    requires Spread(ts) && Nondecreasing(ts) && first + 6 <= |ts|
    ensures ts[|ts| - 1] - ts[first] >= MINUTE
  {
    assert ts[first + 5] - ts[first] >= MINUTE;
  }

  lemma SinceAfterFailure(before: seq<Event>, e: Event, ip: Ip)
    requires Fails(e, ip)
    ensures Since(before + [e], ip) == Since(before, ip) + [e.at]
  {
    assert (before + [e])[..|before|] == before;
  }

  /** The recorded list after a stretch that begins and ends with a failure and has no success. */
  lemma StretchEnds(before: seq<Event>, stretch: seq<Event>, ip: Ip)
    requires |stretch| >= 2 && Fails(stretch[0], ip) && Fails(stretch[|stretch| - 1], ip)
    requires forall e :: e in stretch ==> !Succeeds(e, ip)
    ensures var f, first := Since(before + stretch, ip), |Since(before, ip)|;
            && |f| == first + FailureCount(stretch, ip) && first < |f|
            && f[first] == stretch[0].at && f[|f| - 1] == stretch[|stretch| - 1].at
  {
    var n := |stretch| - 1;
    SinceOverStretch(before, stretch, ip);
    assert before + stretch == (before + [stretch[0]]) + stretch[1..];
    SinceOverStretch(before + [stretch[0]], stretch[1..], ip);
    SinceAfterFailure(before, stretch[0], ip);
    assert before + stretch == (before + stretch[..n]) + [stretch[n]];
    SinceAfterFailure(before + stretch[..n], stretch[n], ip);
  }

  /** The window: whatever the interleaving, six failed completions of one address
      without a successful one between the first and the last span at least a minute,
      so at most five fall into any window (t, t + 1 min]. */
  lemma SlidingWindow(now: Time, steps: seq<Step>, ip: Ip, i: nat, j: nat)
    requires var h := Run(Start(now), steps).history;
             && i < j < |h| && Fails(h[i], ip) && Fails(h[j], ip)
             && (forall k :: i <= k <= j ==> !Succeeds(h[k], ip))
             && FailureCount(h[i..j + 1], ip) >= 6
    ensures var h := Run(Start(now), steps).history;
            h[j].at - h[i].at >= MINUTE
  {
    var h := Run(Start(now), steps).history;
    assert h[..j + 1] == h[..i] + h[i..j + 1];
    StretchEnds(h[..i], h[i..j + 1], ip);
    SpreadOfAll(now, steps, j + 1, ip);
    SpreadEnds(Since(h[..j + 1], ip), |Since(h[..i], ip)|);
  }
}
