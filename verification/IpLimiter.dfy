/**
 The per-IP limiter: a live-connection count and a one-second sliding window of
 admissions for each address.  Times are nanoseconds.
 */
module IpLimiter {

  const SECOND := 1_000_000_000
  const CLEANUP_INTERVAL := 300 * SECOND

  /** The limiter's maps as values. */
  datatype State = State(conns: map<string, int>, rates: map<string, seq<int>>, lastCleanup: int)

  function Count(s: State, ip: string): int {
    if ip in s.conns then s.conns[ip] else 0
  }

  function Track(s: State, ip: string): seq<int> {
    if ip in s.rates then s.rates[ip] else []
  }

  /** The timestamps after the cutoff, in order. */
  function Recent(ts: seq<int>, cutoff: int): seq<int> {
    if ts == [] then []
    else
      var n := |ts| - 1;
      if ts[n] > cutoff then Recent(ts[..n], cutoff) + [ts[n]] else Recent(ts[..n], cutoff)
  }

  /** The addresses `cleanup` drops. */
  function Idle(s: State): set<string> {
    set ip | ip in s.conns && s.conns[ip] == 0
  }

  function Cleaned(s: State): State {
    s.(conns := s.conns - Idle(s), rates := s.rates - Idle(s))
  }

  /** What the clock returns to one call: when it decides on a cleanup, when it notes one, and for the window. */
  datatype Reading = Reading(check: int, noted: int, now: int)

  function Prepared(s: State, at: Reading): State {
    if at.check - s.lastCleanup > CLEANUP_INTERVAL then Cleaned(s).(lastCleanup := at.noted) else s
  }

  /** `Allow`. */
  function AllowStep(s: State, ip: string, at: Reading, maxConns: int, rateLimit: int): (State, bool) {
    var p := Prepared(s, at);
    if Count(p, ip) >= maxConns then (p, false)
    else
      var kept := Recent(Track(p, ip), at.now - SECOND);
      if |kept| >= rateLimit then (p.(rates := p.rates[ip := kept]), false)
      else (p.(conns := p.conns[ip := Count(p, ip) + 1], rates := p.rates[ip := kept + [at.now]]), true)
  }

  /** `Release`. */
  function ReleaseStep(s: State, ip: string): State {
    if Count(s, ip) <= 0 then s
    else if Count(s, ip) == 1 then s.(conns := s.conns - {ip})
    else s.(conns := s.conns[ip := Count(s, ip) - 1])
  }

  // ---------------------------------------------------------------------------
  // The limiter

  /** The loop of `Allow` that moves the recent timestamps to the front of the slice. */
  method Compact(connections: array<int>, cutoff: int) returns (valid: nat)
    modifies connections
    ensures valid <= connections.Length
    ensures connections[..valid] == Recent(old(connections[..]), cutoff)
  {
    ghost var was := connections[..];
    valid := 0;
    for i := 0 to connections.Length
      invariant valid <= i
      invariant forall k :: i <= k < connections.Length ==> connections[k] == was[k]
      invariant connections[..valid] == Recent(was[..i], cutoff)
    {
      assert was[..i + 1][..i] == was[..i];
      var ts := connections[i];
      if ts > cutoff {
        connections[valid] := ts;
        valid := valid + 1;
        assert connections[..valid] == connections[..valid - 1] + [ts];
      }
    }
    assert was[..connections.Length] == was;
  }

  class IPLimiter {
    const maxConnsPerIP: int
    const rateLimit: int
    var ipConns: map<string, int>
    var ipRates: map<string, seq<int>>
    var lastCleanup: int

    ghost function Now(): State
      reads this
    {
      State(ipConns, ipRates, lastCleanup)
    }

    constructor (maxConnsPerIP: int, rateLimit: int, now: int)
      ensures this.maxConnsPerIP == maxConnsPerIP && this.rateLimit == rateLimit
      ensures Now() == State(map[], map[], now)
    {
      this.maxConnsPerIP, this.rateLimit := maxConnsPerIP, rateLimit;
      ipConns, ipRates, lastCleanup := map[], map[], now;
    }

    method Cleanup()
      modifies `ipConns, `ipRates
      ensures Now() == Cleaned(old(Now()))
      ensures forall ip :: ip in ipConns <==> ip in old(ipConns) && old(ipConns)[ip] != 0
      ensures forall ip :: ip in ipRates <==> ip in old(ipRates) && !(ip in old(ipConns) && old(ipConns)[ip] == 0)
    {
      ghost var s := Now();
      var todo := ipConns.Keys;
      ghost var gone: set<string> := {};
      while todo != {}
        invariant todo <= s.conns.Keys
        invariant gone == set ip | ip in s.conns && ip !in todo && s.conns[ip] == 0
        invariant ipConns == s.conns - gone && ipRates == s.rates - gone
        decreases todo
      {
        var ip :| ip in todo;
        if ipConns[ip] == 0 {
          ipConns, ipRates := ipConns - {ip}, ipRates - {ip};
          gone := gone + {ip};
        }
        todo := todo - {ip};
      }
      assert gone == Idle(s);
    }

    /** The address's tracker, made if it is missing, without the timestamps up to the cutoff. */
    method Window(ip: string, cutoff: int) returns (rate: seq<int>)
      modifies `ipRates
      ensures rate == Recent(Track(old(Now()), ip), cutoff) && ipRates == old(ipRates)[ip := rate]
    {
      hide Recent;
      if ip !in ipRates {
        ipRates := ipRates[ip := []];
      }
      rate := ipRates[ip];
      var connections := new int[|rate|](i requires 0 <= i < |rate| => rate[i]);
      assert connections[..] == rate;
      var valid := Compact(connections, cutoff);
      rate := connections[..valid];
      ipRates := ipRates[ip := rate];
    }

    method Allow(ip: string, at: Reading) returns (ok: bool)
      modifies this
      ensures (Now(), ok) == AllowStep(old(Now()), ip, at, maxConnsPerIP, rateLimit)
    {
      hide Recent, Cleaned;
      if at.check - lastCleanup > CLEANUP_INTERVAL {
        Cleanup();
        lastCleanup := at.noted;
      }
      var current := if ip in ipConns then ipConns[ip] else 0;
      if current >= maxConnsPerIP {
        return false;
      }
      ghost var rates := ipRates;
      var rate := Window(ip, at.now - SECOND);
      if |rate| >= rateLimit {
        return false;
      }
      ipRates := ipRates[ip := rate + [at.now]];
      assert ipRates == rates[ip := rate + [at.now]];
      ipConns := ipConns[ip := current + 1];
      ok := true;
    }

    method Release(ip: string)
      modifies `ipConns
      ensures Now() == ReleaseStep(old(Now()), ip)
    {
      if ip in ipConns && ipConns[ip] > 0 {
        ipConns := ipConns[ip := ipConns[ip] - 1];
        if ipConns[ip] == 0 {
          ipConns := ipConns - {ip};
        }
      }
    }
  }

  // ---------------------------------------------------------------------------
  // Runs

  datatype Event = Allow(ip: string, at: Reading) | Release(ip: string)

  function Step(s: State, e: Event, maxConns: int, rateLimit: int): State {
    match e
    case Allow(ip, at) => AllowStep(s, ip, at, maxConns, rateLimit).0
    case Release(ip) => ReleaseStep(s, ip)
  }

  function Final(s: State, es: seq<Event>, maxConns: int, rateLimit: int): State
    decreases |es|
  {
    if es == [] then s else Final(Step(s, es[0], maxConns, rateLimit), es[1..], maxConns, rateLimit)
  }

  /** When connections of `ip` were admitted, in order. */
  function Admitted(s: State, es: seq<Event>, ip: string, maxConns: int, rateLimit: int): seq<int>
    decreases |es|
  {
    if es == [] then []
    else
      NewlyAdmitted(s, es[0], ip, maxConns, rateLimit)
      + Admitted(Step(s, es[0], maxConns, rateLimit), es[1..], ip, maxConns, rateLimit)
  }

  /** How many releases of `ip` gave back a slot. */
  function Released(s: State, es: seq<Event>, ip: string, maxConns: int, rateLimit: int): nat
    decreases |es|
  {
    if es == [] then 0
    else
      NewlyReleased(s, es[0], ip)
      + Released(Step(s, es[0], maxConns, rateLimit), es[1..], ip, maxConns, rateLimit)
  }

  /** The clock does not go back from `t` on. */
  predicate Monotone(es: seq<Event>, t: int)
    decreases |es|
  {
    es == [] ||
    (if es[0].Allow? then t <= es[0].at.now && Monotone(es[1..], es[0].at.now) else Monotone(es[1..], t))
  }

  /** The clock at the end of a run. */
  function LastTime(es: seq<Event>, t: int): int
    decreases |es|
  {
    if es == [] then t else LastTime(es[1..], if es[0].Allow? then es[0].at.now else t)
  }

  predicate Sorted(a: seq<int>, t: int) {
    (forall i, j :: 0 <= i < j < |a| ==> a[i] <= a[j]) && (forall i :: 0 <= i < |a| ==> a[i] <= t)
  }

  /** Any `rateLimit + 1` admissions in a row span at least a second; without a limit above zero there are none. */
  predicate Spaced(a: seq<int>, rateLimit: int) {
    && (rateLimit <= 0 ==> a == [])
    && forall m :: 0 < rateLimit <= m < |a| ==> a[m] - a[m - rateLimit] >= SECOND
  }

  /** The tracker holds the latest admissions, and all it has forgotten are at least a second old. */
  predicate TracksLatest(a: seq<int>, kept: seq<int>, t: int) {
    && |kept| <= |a| && kept == a[|a| - |kept|..]
    && forall i :: 0 <= i < |a| - |kept| ==> a[i] <= t - SECOND
  }

  /** No live count is zero, so `cleanup` has nothing to drop. */
  predicate NoZeroCount(s: State) {
    forall ip :: ip in s.conns ==> s.conns[ip] > 0
  }

  /** What holds of `ip` after the admissions `a` and `r` releases, at time `t`. */
  predicate Inv(s: State, ip: string, a: seq<int>, r: nat, t: int, maxConns: int, rateLimit: int) {
    && NoZeroCount(s)
    && Count(s, ip) == |a| - r && (Count(s, ip) == 0 || 0 < Count(s, ip) <= maxConns)
    && Sorted(a, t) && TracksLatest(a, Track(s, ip), t) && Spaced(a, rateLimit)
  }

  /** If the latest timestamp is too old, so are the others. */
  lemma {:induction false} OldAll(ts: seq<int>, cutoff: int, last: int)
    requires last <= cutoff && forall i :: 0 <= i < |ts| ==> ts[i] <= last
    ensures Recent(ts, cutoff) == []
    decreases |ts|
  {
    if ts != [] {
      OldAll(ts[..|ts| - 1], cutoff, last);
    }
  }

  /** On a sorted tracker, compaction drops a prefix. */
  lemma {:induction false} RecentSuffix(ts: seq<int>, cutoff: int) returns (d: nat)
    requires forall i, j :: 0 <= i < j < |ts| ==> ts[i] <= ts[j]
    ensures d <= |ts| && Recent(ts, cutoff) == ts[d..] && forall i :: 0 <= i < d ==> ts[i] <= cutoff
    decreases |ts|
  {
    var n := |ts| - 1;
    if n < 0 {
      d := 0;
    } else if ts[n] > cutoff {
      d := RecentSuffix(ts[..n], cutoff);
      assert ts[..n][d..] + [ts[n]] == ts[d..];
    } else {
      OldAll(ts[..n], cutoff, ts[n]);
      d := |ts|;
    }
  }

  /** The positions of the timestamps after the cutoff. */
  ghost function After(ts: seq<int>, cutoff: int): set<int> {
    set i | 0 <= i < |ts| && ts[i] > cutoff
  }

  /** As many are kept as come after the cutoff. */
  lemma {:induction false} RecentCount(ts: seq<int>, cutoff: int)
    ensures |Recent(ts, cutoff)| == |After(ts, cutoff)|
    decreases |ts|
  {
    if ts != [] {
      var n := |ts| - 1;
      RecentCount(ts[..n], cutoff);
      assert After(ts, cutoff) == After(ts[..n], cutoff) + if ts[n] > cutoff then {n} else {};
    }
  }

  /** Exactly those after the cutoff are kept, as often as they occur. */
  lemma {:induction false} RecentIs(ts: seq<int>, cutoff: int, x: int)
    ensures multiset(Recent(ts, cutoff))[x] == if x > cutoff then multiset(ts)[x] else 0
    decreases |ts|
  {
    if ts != [] {
      var n := |ts| - 1;
      RecentIs(ts[..n], cutoff, x);
      assert ts == ts[..n] + [ts[n]];
    }
  }

  lemma {:induction false} RecentLatest(a: seq<int>, kept: seq<int>, t: int, now: int)
    requires Sorted(a, t) && TracksLatest(a, kept, t) && t <= now
    ensures TracksLatest(a, Recent(kept, now - SECOND), now)
  {
    var d := RecentSuffix(kept, now - SECOND);
    var from := |a| - |kept|;
    assert kept[d..] == a[from + d..];
    forall i | 0 <= i < from + d ensures a[i] <= now - SECOND {
      if i >= from { assert a[i] == kept[i - from]; }
    }
  }

  lemma PreparedSame(s: State, at: Reading)
    requires NoZeroCount(s)
    ensures Prepared(s, at).conns == s.conns && Prepared(s, at).rates == s.rates
  {
    assert Idle(s) == {};
  }

  /** An admission: the admission `rateLimit` places before it has left the window. */
  lemma AdmitKeeps(a: seq<int>, kept: seq<int>, now: int, rateLimit: int)
    requires Sorted(a, now) && TracksLatest(a, kept, now) && Spaced(a, rateLimit) && |kept| < rateLimit
    ensures Sorted(a + [now], now) && TracksLatest(a + [now], kept + [now], now) && Spaced(a + [now], rateLimit)
  {
    var b := a + [now];
    assert kept + [now] == b[|b| - |kept| - 1..];
    forall m | 0 < rateLimit <= m < |b| ensures b[m] - b[m - rateLimit] >= SECOND {
      if m == |a| {
        assert b[m - rateLimit] == a[m - rateLimit] <= now - SECOND;
      }
    }
  }

  /** The admission of `ip` that event `e` makes, if any. */
  function NewlyAdmitted(s: State, e: Event, ip: string, maxConns: int, rateLimit: int): seq<int> {
    if e.Allow? && e.ip == ip && AllowStep(s, ip, e.at, maxConns, rateLimit).1 then [e.at.now] else []
  }

  function NewlyReleased(s: State, e: Event, ip: string): nat {
    if e.Release? && e.ip == ip && Count(s, ip) > 0 then 1 else 0
  }

  /** An `Allow` of another address changes nothing for `ip`. */
  lemma AllowOther(s: State, other: string, at: Reading, ip: string, maxConns: int, rateLimit: int)
    requires NoZeroCount(s) && other != ip
    ensures var s' := AllowStep(s, other, at, maxConns, rateLimit).0;
      NoZeroCount(s') && Count(s', ip) == Count(s, ip) && Track(s', ip) == Track(s, ip)
  {
    PreparedSame(s, at);
    assert Count(s, other) >= 0;
  }

  /** An `Allow` of `ip` itself. */
  lemma AllowSelf(s: State, ip: string, at: Reading, maxConns: int, rateLimit: int)
    requires NoZeroCount(s)
    ensures var (s', ok) := AllowStep(s, ip, at, maxConns, rateLimit);
      var kept := Recent(Track(s, ip), at.now - SECOND);
      && NoZeroCount(s')
      && ok == (Count(s, ip) < maxConns && |kept| < rateLimit)
      && Count(s', ip) == Count(s, ip) + (if ok then 1 else 0)
      && (if ok then Track(s', ip) == kept + [at.now] else Track(s', ip) == Track(s, ip) || Track(s', ip) == kept)
  {
    PreparedSame(s, at);
    assert Count(s, ip) >= 0;
  }

  lemma LaterStill(a: seq<int>, kept: seq<int>, t: int, now: int)
    requires Sorted(a, t) && TracksLatest(a, kept, t) && t <= now
    ensures Sorted(a, now) && TracksLatest(a, kept, now)
  {
  }

  lemma {:induction false} AllowKeeps(s: State, other: string, at: Reading, ip: string,
                                      a: seq<int>, r: nat, t: int, maxConns: int, rateLimit: int)
    requires Inv(s, ip, a, r, t, maxConns, rateLimit) && t <= at.now
    ensures var e := Allow(other, at);
      Inv(Step(s, e, maxConns, rateLimit), ip, a + NewlyAdmitted(s, e, ip, maxConns, rateLimit),
          r, at.now, maxConns, rateLimit)
  {
    hide AllowStep, Recent;
    LaterStill(a, Track(s, ip), t, at.now);
    assert a + [] == a;
    if other != ip {
      AllowOther(s, other, at, ip, maxConns, rateLimit);
    } else {
      AllowSelf(s, ip, at, maxConns, rateLimit);
      RecentLatest(a, Track(s, ip), t, at.now);
      if AllowStep(s, ip, at, maxConns, rateLimit).1 {
        AdmitKeeps(a, Recent(Track(s, ip), at.now - SECOND), at.now, rateLimit);
      }
    }
  }

  lemma ReleaseKeeps(s: State, other: string, ip: string, a: seq<int>, r: nat, t: int, maxConns: int, rateLimit: int)
    requires Inv(s, ip, a, r, t, maxConns, rateLimit)
    ensures Inv(ReleaseStep(s, other), ip, a, r + NewlyReleased(s, Release(other), ip), t, maxConns, rateLimit)
  {
  }

  lemma {:induction false} RunKeeps(s: State, es: seq<Event>, ip: string,
                                    a: seq<int>, r: nat, t: int, maxConns: int, rateLimit: int)
    requires Inv(s, ip, a, r, t, maxConns, rateLimit) && Monotone(es, t)
    ensures Inv(Final(s, es, maxConns, rateLimit), ip, a + Admitted(s, es, ip, maxConns, rateLimit),
                r + Released(s, es, ip, maxConns, rateLimit), LastTime(es, t), maxConns, rateLimit)
    decreases |es|
  {
    hide Inv, NewlyAdmitted, NewlyReleased, ReleaseStep, AllowStep;
    if es == [] {
      assert a + [] == a;
    } else {
      var e := es[0];
      var s', na, nr := Step(s, e, maxConns, rateLimit),
        NewlyAdmitted(s, e, ip, maxConns, rateLimit), NewlyReleased(s, e, ip);
      assert (a + na) + Admitted(s', es[1..], ip, maxConns, rateLimit)
          == a + (na + Admitted(s', es[1..], ip, maxConns, rateLimit));
      match e
      case Allow(other, at) =>
        AllowKeeps(s, other, at, ip, a, r, t, maxConns, rateLimit);
        NoRelease(s, e, ip);
        RunKeeps(s', es[1..], ip, a + na, r, at.now, maxConns, rateLimit);
      case Release(other) =>
        ReleaseKeeps(s, other, ip, a, r, t, maxConns, rateLimit);
        NoAdmission(s, e, ip, maxConns, rateLimit);
        assert a + [] == a;
        RunKeeps(s', es[1..], ip, a, r + nr, t, maxConns, rateLimit);
    }
  }

  lemma NoRelease(s: State, e: Event, ip: string)
    requires e.Allow?
    ensures NewlyReleased(s, e, ip) == 0
  {
  }

  lemma NoAdmission(s: State, e: Event, ip: string, maxConns: int, rateLimit: int)
    requires e.Release?
    ensures NewlyAdmitted(s, e, ip, maxConns, rateLimit) == []
  {
  }

  /** `cleanup` on a state without zero counts drops nothing. */
  lemma CleanedSame(s: State)
    requires NoZeroCount(s)
    ensures Idle(s) == {} && Cleaned(s) == s
  {
    assert Idle(s) == {};
    assert s.conns - {} == s.conns && s.rates - {} == s.rates;
  }

  /**
   In every run with a clock that does not go back, for every address: any
   `rateLimit + 1` admissions in a row span at least a second; the live count is
   admissions minus releases and never above the maximum; and no address has a count
   of zero, so `cleanup` drops no tracker.
   */
  lemma {:induction false} RunIsLimited(start: int, es: seq<Event>, ip: string, maxConns: int, rateLimit: int)
    requires Monotone(es, start)
    ensures var s := State(map[], map[], start);
      var a, r := Admitted(s, es, ip, maxConns, rateLimit), Released(s, es, ip, maxConns, rateLimit);
      var s' := Final(s, es, maxConns, rateLimit);
      && Spaced(a, rateLimit)
      && Count(s', ip) == |a| - r && (Count(s', ip) == 0 || 0 < Count(s', ip) <= maxConns)
      && Idle(s') == {} && Cleaned(s') == s'
  {
    hide Idle, Cleaned, Spaced, Final, Admitted, Released, NoZeroCount, TracksLatest, Monotone;
    var s := State(map[], map[], start);
    StartsLimited(start, ip, maxConns, rateLimit);
    RunKeeps(s, es, ip, [], 0, start, maxConns, rateLimit);
    assert [] + Admitted(s, es, ip, maxConns, rateLimit) == Admitted(s, es, ip, maxConns, rateLimit);
    CleanedSame(Final(s, es, maxConns, rateLimit));
  }

  lemma StartsLimited(start: int, ip: string, maxConns: int, rateLimit: int)
    ensures Inv(State(map[], map[], start), ip, [], 0, start, maxConns, rateLimit)
  {
  }

  /** What the tracker has forgotten is not recent. */
  lemma {:induction false} RecentOfAll(a: seq<int>, kept: seq<int>, cutoff: int)
    requires |kept| <= |a| && kept == a[|a| - |kept|..]
    requires forall i :: 0 <= i < |a| - |kept| ==> a[i] <= cutoff
    ensures Recent(a, cutoff) == Recent(kept, cutoff)
    decreases |kept|
  {
    if kept == [] {
      OldAll(a, cutoff, cutoff);
    } else {
      assert kept[|kept| - 1] == a[|a| - 1];
      RecentOfAll(a[..|a| - 1], kept[..|kept| - 1], cutoff);
    }
  }

  /**
   After every run, a further connection of an address is admitted exactly if the
   address has fewer than `maxConns` live connections and fewer than `rateLimit` of all
   its admissions were within the last second.
   */
  lemma {:induction false} AdmittedExactly(start: int, es: seq<Event>, ip: string,
                                           at: Reading, maxConns: int, rateLimit: int)
    requires Monotone(es, start) && LastTime(es, start) <= at.now
    ensures var s := State(map[], map[], start);
      var a, r := Admitted(s, es, ip, maxConns, rateLimit), Released(s, es, ip, maxConns, rateLimit);
      AllowStep(Final(s, es, maxConns, rateLimit), ip, at, maxConns, rateLimit).1
      <==> |a| - r < maxConns && |set i | 0 <= i < |a| && at.now - a[i] < 1_000_000_000| < rateLimit
  {
    hide Recent, AllowStep, Spaced, Final, Admitted, Released, NoZeroCount, Monotone, LastTime;
    var s := State(map[], map[], start);
    var a := Admitted(s, es, ip, maxConns, rateLimit);
    var s' := Final(s, es, maxConns, rateLimit);
    StartsLimited(start, ip, maxConns, rateLimit);
    RunKeeps(s, es, ip, [], 0, start, maxConns, rateLimit);
    assert [] + a == a;
    AllowSelf(s', ip, at, maxConns, rateLimit);
    RecentOfAll(a, Track(s', ip), at.now - SECOND);
    RecentCount(a, at.now - SECOND);
    assert After(a, at.now - SECOND) == set i | 0 <= i < |a| && at.now - a[i] < 1_000_000_000;
  }
}
