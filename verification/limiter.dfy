/** The login limiter: failed attempts per client address inside a minute, places
    reserved for attempts under way, and a cap on the addresses tracked. */
module Limiter {

  type Ip = string

  /** Nanoseconds. */
  type Time = int

  const MINUTE: int := 60_000_000_000
  const CLIENT_LIMIT: nat := 1024
  const ATTEMPT_LIMIT: nat := 5

  datatype State = State(failures: map<Ip, seq<Time>>, pending: map<Ip, nat>)

  // -------------------------------------------------------- what calls do

  /** The attempts inside the minute that ends at `now`, in order. */
  function Recent(attempts: seq<Time>, now: Time): (r: seq<Time>)
    ensures |r| <= |attempts|
  {
    if attempts == [] then []
    else
      var init, last := Recent(attempts[..|attempts| - 1], now), attempts[|attempts| - 1];
      if last > now - MINUTE then init + [last] else init
  }

  lemma RecentNext(attempts: seq<Time>, i: nat, now: Time)
    requires i < |attempts|
    ensures Recent(attempts[..i + 1], now)
            == Recent(attempts[..i], now) + if attempts[i] > now - MINUTE then [attempts[i]] else []
  {
    assert attempts[..i + 1][..i] == attempts[..i];
  }

  /** Every address is pruned at its own reading of the clock; empty lists go. */
  function Prune(failures: map<Ip, seq<Time>>, readings: map<Ip, Time>): map<Ip, seq<Time>> {
    map ip | ip in failures && ip in readings && Recent(failures[ip], readings[ip]) != []
      :: Recent(failures[ip], readings[ip])
  }

  function Failures(s: State, ip: Ip): seq<Time> { if ip in s.failures then s.failures[ip] else [] }

  function Pending(s: State, ip: Ip): nat { if ip in s.pending then s.pending[ip] else 0 }

  function Clients(s: State): set<Ip> { s.failures.Keys + s.pending.Keys }

  function Admit(s: State, ip: Ip, readings: map<Ip, Time>): (State, bool) {
    Reserve(s.(failures := Prune(s.failures, readings)), ip)
  }

  function Reserve(s: State, ip: Ip): (State, bool) {
    if ip !in s.failures && Pending(s, ip) == 0 && |Clients(s)| >= CLIENT_LIMIT then (s, false)
    else if |Failures(s, ip)| + Pending(s, ip) >= ATTEMPT_LIMIT then (s, false)
    else (s.(pending := s.pending[ip := Pending(s, ip) + 1]), true)
  }

  function Complete(s: State, ip: Ip, failed: bool, readings: map<Ip, Time>, at: Time): State {
    var s1 := s.(failures := Prune(s.failures, readings));
    var s2 := s1.(pending := if Pending(s1, ip) > 1 then s1.pending[ip := s1.pending[ip] - 1] else s1.pending - {ip});
    s2.(failures := if failed then s2.failures[ip := Failures(s2, ip) + [at]] else s2.failures - {ip})
  }

  // ------------------------------------------------------------- the class

  /** A clock that never runs backwards. */
  class Clock {
    var time: Time

    constructor (time: Time)
      ensures this.time == time
    {
      this.time := time;
    }

    method Now() returns (t: Time)
      modifies this
      ensures t == time && time >= old(time)
    {
      var reading: Time := *;
      if reading > time {
        time := reading;
      }
      return time;
    }
  }

  class LoginLimiter {
    var failures: map<Ip, seq<Time>>
    var pending: map<Ip, nat>
    const clock: Clock

    constructor (clock: Clock)
      ensures this.clock == clock && Contents() == State(map[], map[])
    {
      this.clock := clock;
      failures, pending := map[], map[];
    }

    function Contents(): State
      reads this
    {
      State(failures, pending)
    }

    /** Keeps the recent attempts in the buffer they come from. */
    method PruneFailures(ip: Ip) returns (now: Time)
      requires ip in failures
      modifies this`failures, clock
      ensures old(clock.time) <= now == clock.time
      ensures var recent := Recent(old(failures)[ip], now);
              failures == if recent == [] then old(failures) - {ip} else old(failures)[ip := recent]
    {
      now := clock.Now();
      var attempts := failures[ip];
      ghost var before := attempts;
      var kept, i := 0, 0;
      while i < |attempts|
        invariant failures == old(failures) && clock.time == now
        invariant kept <= i <= |attempts| == |before|
        invariant attempts[..kept] == Recent(before[..i], now)
        invariant forall k :: i <= k < |before| ==> attempts[k] == before[k]
      {
        RecentNext(before, i, now);
        if attempts[i] > now - MINUTE {
          attempts := attempts[kept := attempts[i]];
          kept := kept + 1;
        }
        i := i + 1;
      }
      assert before[..i] == before;
      if kept == 0 {
        failures := failures - {ip};
      } else {
        failures := failures[ip := attempts[..kept]];
      }
    }

    /** In whatever order; each address has its own reading. */
    method PruneAllFailures() returns (ghost readings: map<Ip, Time>)
      modifies this`failures, clock
      ensures old(clock.time) <= clock.time
      ensures readings.Keys == old(failures).Keys
      ensures forall ip :: ip in readings ==> old(clock.time) <= readings[ip] <= clock.time
      ensures failures == Prune(old(failures), readings)
    {
      readings := map[];
      var todo := failures.Keys;
      while todo != {}
        invariant todo !! readings.Keys && todo + readings.Keys == old(failures).Keys
        invariant old(clock.time) <= clock.time
        invariant forall ip :: ip in readings ==> old(clock.time) <= readings[ip] <= clock.time
        invariant forall ip :: ip in todo ==> ip in failures && failures[ip] == old(failures)[ip]
        invariant failures - todo == Prune(old(failures), readings)
        decreases todo
      {
        var ip :| ip in todo;
        ghost var before := failures;
        var now := PruneFailures(ip);
        PruneOne(old(failures), readings, ip, now);
        SetAside(before, todo, ip, Recent(before[ip], now));
        todo := todo - {ip};
        readings := readings[ip := now];
      }
    }

    method LimiterClients() returns (clients: nat)
      ensures clients == |Clients(Contents())|
    {
      clients := |failures|;
      var todo := pending.Keys;
      ghost var seen: set<Ip> := {};
      while todo != {}
        invariant seen !! todo && seen + todo == pending.Keys
        invariant clients == |failures.Keys + seen|
        decreases todo
      {
        var ip :| ip in todo;
        todo := todo - {ip};
        assert failures.Keys + (seen + {ip}) == failures.Keys + seen + {ip};
        seen := seen + {ip};
        if ip !in failures {
          clients := clients + 1;
        }
      }
    }

    method AdmitLoginAttempt(ip: Ip) returns (ok: bool, ghost readings: map<Ip, Time>)
      modifies this, clock
      ensures ReadingsIn(readings, old(failures), old(clock.time), clock.time)
      ensures (Contents(), ok) == Admit(old(Contents()), ip, readings)
    {
      readings := PruneAllFailures();
      ok := TakePlace(ip);
    }

    method TakePlace(ip: Ip) returns (ok: bool)
      modifies this`pending
      ensures (Contents(), ok) == Reserve(old(Contents()), ip)
    {
      var reserved := if ip in pending then pending[ip] else 0;
      if ip !in failures && reserved == 0 {
        var clients := LimiterClients();
        if clients >= CLIENT_LIMIT {
          return false;
        }
      }
      var failed := if ip in failures then |failures[ip]| else 0;
      if failed + reserved >= ATTEMPT_LIMIT {
        return false;
      }
      pending := pending[ip := reserved + 1];
      return true;
    }

    method CompleteLoginAttempt(ip: Ip, failed: bool) returns (ghost readings: map<Ip, Time>, ghost at: Time)
      modifies this, clock
      ensures ReadingsIn(readings, old(failures), old(clock.time), at) && at <= clock.time
      ensures Contents() == Complete(old(Contents()), ip, failed, readings, at)
    {
      readings := PruneAllFailures();
      at := clock.time;
      if ip in pending && pending[ip] > 1 {
        pending := pending[ip := pending[ip] - 1];
      } else {
        pending := pending - {ip};
      }
      if failed {
        var now := clock.Now();
        at := now;
        var attempts := if ip in failures then failures[ip] else [];
        failures := failures[ip := attempts + [now]];
      } else {
        failures := failures - {ip};
      }
    }
  }

  /** One reading per tracked address, taken between two times. */
  predicate ReadingsIn(readings: map<Ip, Time>, failures: map<Ip, seq<Time>>, from: Time, to: Time) {
    && readings.Keys == failures.Keys && from <= to
    && forall ip :: ip in readings ==> from <= readings[ip] <= to
  }

  lemma SetAside(failures: map<Ip, seq<Time>>, todo: set<Ip>, ip: Ip, recent: seq<Time>)
    requires ip in todo
    ensures failures - {ip} - (todo - {ip}) == failures - todo
    ensures failures[ip := recent] - (todo - {ip}) == (failures - todo)[ip := recent]
  {
  }

  lemma PruneOne(failures: map<Ip, seq<Time>>, readings: map<Ip, Time>, ip: Ip, now: Time)
    requires ip in failures && ip !in readings
    ensures Prune(failures, readings[ip := now])
            == var recent := Recent(failures[ip], now);
               if recent == [] then Prune(failures, readings) else Prune(failures, readings)[ip := recent]
  {
  }
}
