/** When the limiter lets an attempt in, in terms of what happened before. */
module LimiterAdmission {
  import opened Limiter
  import opened LimiterHistory

  /** The reading of the clock at which the step prunes the address. */
  function ReadingOf(st: Step, ip: Ip): Time { if ip in st.readings then st.readings[ip] else st.at }

  /** The address's failures since its last success inside the minute before that reading. */
  function InMinute(w: World, st: Step, ip: Ip): set<nat> {
    var since := Since(w.history, ip);
    set k: nat | k < |since| && since[k] > ReadingOf(st, ip) - 60_000_000_000
  }

  /** The places the address takes: those failures, and its attempts under way. */
  function Places(w: World, st: Step, ip: Ip): nat { |InMinute(w, st, ip)| + |OpenOf(w.open, ip)| }

  function Seen(w: World): set<Ip> { (set e | e in w.history :: e.ip) + w.open.Values }

  /** The addresses that take a place. */
  function Tracked(w: World, st: Step): set<Ip> { set ip | ip in Seen(w) && Places(w, st, ip) > 0 }

  // ------------------------------------------------------------ the records

  function RecentOnes(ts: seq<Time>, now: Time): set<nat> { set k: nat | k < |ts| && ts[k] > now - MINUTE }

  lemma {:induction false} RecentCounts(ts: seq<Time>, now: Time)
    ensures |Recent(ts, now)| == |RecentOnes(ts, now)|
  {
    if ts != [] {
      var n := |ts| - 1;
      RecentCounts(ts[..n], now);
      assert RecentOnes(ts, now) == RecentOnes(ts[..n], now) + if ts[n] > now - MINUTE then {n} else {};
    }
  }

  lemma ShiftedCount(a: set<nat>, b: set<nat>, shift: nat)
    requires forall k: nat :: k in a <==> k >= shift && k - shift in b
    requires forall k :: k in b ==> k + shift in a
    ensures |a| == |b|
    decreases b
  {
    if b == {} {
      assert a == {};
    } else {
      var k :| k in b;
      ShiftedCount(a - {k + shift}, b - {k}, shift);
    }
  }

  lemma RecordCounts(since: seq<Time>, recorded: seq<Time>, now: Time, reading: Time)
    requires RecordOk(since, recorded, now) && now <= reading
    ensures |RecentOnes(since, reading)| == |RecentOnes(recorded, reading)|
  {
    var dropped := |since| - |recorded|;
    forall k: nat
      ensures k in RecentOnes(since, reading) <==> k >= dropped && k - dropped in RecentOnes(recorded, reading)
    {
      assert k < dropped ==> since[k] <= now - MINUTE;
      assert dropped <= k < |since| ==> since[k] == recorded[k - dropped];
    }
    ShiftedCount(RecentOnes(since, reading), RecentOnes(recorded, reading), dropped);
  }

  /** What is left of the address after the step has pruned. */
  function Pruned(w: World, st: Step): State { w.state.(failures := Prune(w.state.failures, st.readings)) }

  lemma PrunedFailures(w: World, st: Step, ip: Ip)
    requires PlacesOk(w, ip) && HistoryOk(w, ip) && Possible(w, st)
    ensures |Failures(Pruned(w, st), ip)| == |InMinute(w, st, ip)|
    ensures ip in Pruned(w, st).failures <==> |InMinute(w, st, ip)| > 0
  {
    var since, recorded := Since(w.history, ip), Failures(w.state, ip);
    assert InMinute(w, st, ip) == RecentOnes(since, ReadingOf(st, ip));
    RecordCounts(since, recorded, w.now, ReadingOf(st, ip));
    RecentCounts(recorded, ReadingOf(st, ip));
  }

  lemma {:induction false} FailedIsSeen(history: seq<Event>, ip: Ip)
    requires Since(history, ip) != []
    ensures exists e :: e in history && e.ip == ip
  {
    var n := |history| - 1;
    if history[n].ip != ip {
      FailedIsSeen(history[..n], ip);
    }
  }

  lemma OpenIsSeen(open: map<nat, Ip>, ip: Ip)
    requires |OpenOf(open, ip)| > 0
    ensures ip in open.Values
  {
    var a :| a in OpenOf(open, ip);
  }

  lemma PendingIsOpen(w: World, ip: Ip)
    requires PlacesOk(w, ip)
    ensures ip in w.state.pending <==> |OpenOf(w.open, ip)| > 0
  {
  }

  lemma ClientsAreTracked(w: World, st: Step)
    requires Possible(w, st) && forall ip :: PlacesOk(w, ip) && HistoryOk(w, ip)
    ensures Clients(Pruned(w, st)) == Tracked(w, st)
  {
    forall ip ensures ip in Clients(Pruned(w, st)) <==> ip in Tracked(w, st) {
      PrunedFailures(w, st, ip);
      PendingIsOpen(w, ip);
      if Places(w, st, ip) > 0 {
        if InMinute(w, st, ip) != {} {
          FailedIsSeen(w.history, ip);
        } else {
          OpenIsSeen(w.open, ip);
        }
        assert ip in Seen(w);
      }
    }
  }

  /** After every run: an attempt is let in exactly when its address takes fewer than five
      places, and takes one already or fewer than 1024 addresses do. */
  lemma AdmittedExactly(now: Time, steps: seq<Step>, st: Step)
    requires st.Attempt? && Possible(Run(Start(now), steps), st)
    ensures var w := Run(Start(now), steps);
            st.attempt in Do(w, st).open
            <==> Places(w, st, st.ip) < 5 && (st.ip in Tracked(w, st) || |Tracked(w, st)| < 1024)
  {
    var w := Run(Start(now), steps);
    CapacityIsKept(now, steps);
    forall ip ensures PlacesOk(w, ip) && HistoryOk(w, ip) {
      RecordIsKept(now, steps, ip);
    }
    ClientsAreTracked(w, st);
    PrunedFailures(w, st, st.ip);
    assert PlacesOk(w, st.ip);
    ReservesExactly(Pruned(w, st), st.ip);
  }

  lemma ReservesExactly(s: State, ip: Ip)
    requires ip in s.pending ==> s.pending[ip] > 0
    ensures Reserve(s, ip).1 <==>
            |Failures(s, ip)| + Pending(s, ip) < 5 && (ip in Clients(s) || |Clients(s)| < 1024)
  {
  }
}
