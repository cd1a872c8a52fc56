/**
 The pool of connections to one backend: a bounded queue of idle connections, the
 set of those handed out, and a counter that stands for the set's size.
 */
module Pool {
  import opened Wrappers

  predicate Distinct<C(==)>(s: seq<C>) {
    forall i, j :: 0 <= i < j < |s| ==> s[i] != s[j]
  }

  // ---------------------------------------------------------------------------
  // The methods on values

  /** `idleConns`, the keys of `activeConns`, and `activeCount`. */
  datatype State<C> = State(idle: seq<C>, active: set<C>, count: int)

  datatype Outcome<C> = Reused(conn: C) | Dialed(conn: C) | Full | DialFailed

  /** The idle connection `Get` hands out or finds expired leaves the queue. */
  function Popped<C>(s: State<C>): State<C> {
    if s.idle == [] then s else s.(idle := s.idle[1..], active := s.active - {s.idle[0]})
  }

  function Activated<C>(s: State<C>, c: C): State<C> {
    s.(active := s.active + {c}, count := s.count + 1)
  }

  /** `Get`, given whether the first idle connection has expired and what a dial returns. */
  function GetStep<C>(s: State<C>, max: nat, expired: bool, dial: Option<C>): (State<C>, Outcome<C>) {
    if s.idle != [] && !expired then (Activated(s.(idle := s.idle[1..]), s.idle[0]), Reused(s.idle[0]))
    else if s.count >= max then (Popped(s), Full)
    else if dial.None? then (Popped(s), DialFailed)
    else (Activated(Popped(s), dial.value), Dialed(dial.value))
  }

  /** The connection that `Get` closes. */
  function GetCloses<C>(s: State<C>, expired: bool): set<C> {
    if s.idle != [] && expired then {s.idle[0]} else {}
  }

  /** What `Put` and `Remove` do to the active connections. */
  function Deactivated<C>(s: State<C>, c: C): State<C> {
    s.(active := s.active - {c}, count := if s.count > 0 then s.count - 1 else s.count)
  }

  function PutStep<C>(s: State<C>, max: nat, c: C): State<C> {
    var d := Deactivated(s, c);
    if |s.idle| < max then d.(idle := s.idle + [c]) else d
  }

  ghost function CleanupStep<C>(s: State<C>): State<C> {
    s.(idle := [], active := s.active - Elements(s.idle))
  }

  /** The counter is right, no connection is held twice, and the limit is kept. */
  ghost predicate Sound<C>(s: State<C>, max: nat) {
    && s.count == |s.active|
    && Distinct(s.idle) && s.active !! Elements(s.idle)
    && |s.active| + |s.idle| <= max
  }

  // ---------------------------------------------------------------------------
  // The pool

  class Connection {
    var lastUsedAt: int
    var inUse: bool
    var closed: bool

    constructor (now: int)
      ensures lastUsedAt == now && inUse && !closed
    {
      lastUsedAt, inUse, closed := now, true, false;
    }

    predicate Expired(now: int, idleTimeout: int)
      reads this
    {
      !inUse && now - lastUsedAt > idleTimeout
    }
  }

  /** A clock that advances between any two readings. */
  ghost predicate Advances(clock: nat -> int) {
    forall i: nat, j: nat :: i < j ==> clock(i) < clock(j)
  }

  class ConnectionPool {
    const maxPerService: nat
    const idleTimeout: int
    var idleConns: seq<Connection>
    var activeConns: set<Connection>
    var activeCount: int

    ghost function Now(): State<Connection>
      reads this
    {
      State(idleConns, activeConns, activeCount)
    }

    /** The queue's bound, and no connection in it is marked in use. */
    ghost predicate Valid()
      reads this, idleConns
    {
      |idleConns| <= maxPerService && forall c :: c in idleConns ==> !c.inUse
    }

    constructor (maxPerService: nat, idleTimeout: int)
      ensures Valid() && Now() == State([], {}, 0)
      ensures this.maxPerService == maxPerService && this.idleTimeout == idleTimeout
    {
      this.maxPerService, this.idleTimeout := maxPerService, idleTimeout;
      idleConns, activeConns, activeCount := [], {}, 0;
    }

    /** The clock reads `now` when the first idle connection is checked, and `used` when a connection is handed out. */
    method Get(now: int, used: int, dialSucceeds: bool) returns (r: Outcome<Connection>)
      modifies this, Elements(idleConns)
      ensures var expired := old(idleConns != [] && idleConns[0].Expired(now, idleTimeout));
        && (Now(), r) == GetStep(old(Now()), maxPerService, expired, if r.Dialed? then Some(r.conn) else None)
        && forall c :: c in old(idleConns) ==> c.closed == (old(c.closed) || c in GetCloses(old(Now()), expired))
      ensures var usable :=
          old(idleConns != [] && (idleConns[0].inUse || now - idleConns[0].lastUsedAt <= idleTimeout));
        && (r.Reused? <==> usable) && (r.Reused? ==> r.conn == old(idleConns)[0])
        && (r.Full? <==> !usable && old(activeCount) >= maxPerService)
        && (r.Dialed? <==> !usable && old(activeCount) < maxPerService && dialSucceeds)
        && (r.DialFailed? <==> !usable && old(activeCount) < maxPerService && !dialSucceeds)
      ensures idleConns == if old(idleConns) == [] then [] else old(idleConns)[1..]
      ensures activeCount == old(activeCount) + if r.Reused? || r.Dialed? then 1 else 0
      ensures r.Dialed? ==> fresh(r.conn)
      ensures r.Dialed? || r.Reused? ==> r.conn.inUse && r.conn.lastUsedAt == used
      ensures old(Valid()) && Distinct(old(idleConns)) ==> Valid()
    {
      if idleConns != [] {
        var conn := idleConns[0];
        idleConns := idleConns[1..];
        if !conn.Expired(now, idleTimeout) {
          conn.inUse, conn.lastUsedAt := true, used;
          activeConns := activeConns + {conn};
          activeCount := activeCount + 1;
          return Reused(conn);
        }
        conn.closed := true;
        activeConns := activeConns - {conn};
      }
      if activeCount >= maxPerService {
        return Full;
      }
      if !dialSucceeds {
        return DialFailed;
      }
      var connection := new Connection(used);
      activeConns := activeConns + {connection};
      activeCount := activeCount + 1;
      return Dialed(connection);
    }

    method Put(conn: Connection, now: int)
      modifies this, conn
      ensures Now() == PutStep(old(Now()), maxPerService, conn)
      ensures activeConns == old(activeConns) - {conn}
      ensures activeCount == if old(activeCount) > 0 then old(activeCount) - 1 else old(activeCount)
      ensures idleConns == if |old(idleConns)| < maxPerService then old(idleConns) + [conn] else old(idleConns)
      ensures !conn.inUse && conn.lastUsedAt == now && conn.closed == old(conn.closed)
      ensures old(Valid()) ==> Valid()
    {
      conn.inUse, conn.lastUsedAt := false, now;
      activeConns := activeConns - {conn};
      if activeCount > 0 {
        activeCount := activeCount - 1;
      }
      if |idleConns| < maxPerService {
        idleConns := idleConns + [conn];
      }
    }

    method Remove(conn: Connection)
      modifies this, conn`closed
      ensures Now() == Deactivated(old(Now()), conn)
      ensures activeConns == old(activeConns) - {conn} && idleConns == old(idleConns)
      ensures activeCount == if old(activeCount) > 0 then old(activeCount) - 1 else old(activeCount)
      ensures conn.closed
      ensures old(Valid()) ==> Valid()
    {
      conn.closed := true;
      activeConns := activeConns - {conn};
      if activeCount > 0 {
        activeCount := activeCount - 1;
      }
    }

    /**
     The loop puts back what has not expired and takes it again, until time has
     made everything expire; `ticks` is how often it has read the clock.
     */
    method Cleanup(clock: nat -> int) returns (count: nat, ticks: nat)
      requires Valid() && Advances(clock)
      modifies this, Elements(idleConns)`closed
      ensures Now() == CleanupStep(old(Now())) && Valid()
      ensures count == |old(idleConns)|
      ensures forall c :: c in old(idleConns) ==> c.closed
      ensures forall c :: c in old(idleConns) ==> ticks > 0 && clock(ticks - 1) - old(c.lastUsedAt) > idleTimeout
    {
      hide Advances, LastExpiry;
      ghost var all := Elements(idleConns);
      ghost var gone: set<Connection> := {};
      ghost var deadline := LastExpiry(idleConns, idleTimeout);
      count, ticks := 0, 0;
      while idleConns != []
        invariant Valid() && count + |idleConns| == |old(idleConns)| && activeCount == old(activeCount)
        invariant Elements(idleConns) + gone == all && activeConns == old(activeConns) - gone
        invariant forall c :: c in gone ==> c.closed && ticks > 0 && clock(ticks - 1) - c.lastUsedAt > idleTimeout
        invariant forall c :: c in idleConns ==> c.lastUsedAt + idleTimeout <= deadline
        decreases if clock(ticks) <= deadline then deadline - clock(ticks) + 1 else 0, |idleConns|
      {
        Ticks(clock, ticks);
        var conn := idleConns[0];
        ghost var was := idleConns;
        idleConns := idleConns[1..];
        assert Elements(was) == {conn} + Elements(idleConns);
        if conn.Expired(clock(ticks), idleTimeout) {
          conn.closed := true;
          activeConns := activeConns - {conn};
          count := count + 1;
          gone := gone + {conn};
        } else {
          assert |idleConns| < maxPerService; // there is room again for what was just taken
          idleConns := idleConns + [conn];
          assert Elements(idleConns) == Elements(was);
        }
        ticks := ticks + 1;
      }
    }

    method Stats() returns (total: int, active: int, idle: int)
      ensures total == active + idle && active == activeCount && idle == |idleConns|
      ensures Sound(Now(), maxPerService) ==> active == |activeConns| && idle == |Elements(idleConns)|
      ensures Sound(Now(), maxPerService) ==> total == |activeConns + Elements(idleConns)| <= maxPerService
    {
      if Distinct(idleConns) {
        DistinctSize(idleConns);
      }
      active, idle := activeCount, |idleConns|;
      total := active + idle;
    }
  }

  lemma Ticks(clock: nat -> int, i: nat)
    requires Advances(clock)
    ensures clock(i) < clock(i + 1) && (i > 0 ==> clock(i - 1) < clock(i))
  {
  }

  /** The time after which every connection in the queue has expired. */
  ghost function LastExpiry(s: seq<Connection>, idleTimeout: int): (t: int)
    reads s
    ensures forall c :: c in s ==> c.lastUsedAt + idleTimeout <= t
  {
    if s == [] then 0
    else
      var t := LastExpiry(s[1..], idleTimeout);
      if t < s[0].lastUsedAt + idleTimeout then s[0].lastUsedAt + idleTimeout else t
  }

  lemma {:induction false} DistinctSize<C>(s: seq<C>)
    requires Distinct(s)
    ensures |Elements(s)| == |s|
    decreases |s|
  {
    if s != [] {
      DistinctSize(s[1..]);
      assert Elements(s) == {s[0]} + Elements(s[1..]);
    }
  }

  // ---------------------------------------------------------------------------
  // Runs

  datatype Event<C> =
    | Get(expired: bool, dial: Option<C>)
    | Put(conn: C)
    | Remove(conn: C)
    | Cleanup

  /** The pool, every connection it has dialed, and those it has closed. */
  datatype World<C> = World(pool: State<C>, dialed: set<C>, closed: set<C>)

  ghost function Start<C>(): World<C> {
    World(State([], {}, 0), {}, {})
  }

  ghost function Step<C>(w: World<C>, e: Event<C>, max: nat): World<C> {
    match e
    case Get(expired, dial) =>
      var (pool, r) := GetStep(w.pool, max, expired, dial);
      World(pool, if r.Dialed? then w.dialed + {r.conn} else w.dialed, w.closed + GetCloses(w.pool, expired))
    case Put(c) => w.(pool := PutStep(w.pool, max, c))
    case Remove(c) => w.(pool := Deactivated(w.pool, c), closed := w.closed + {c})
    case Cleanup => w.(pool := CleanupStep(w.pool), closed := w.closed + Elements(w.pool.idle))
  }

  /** A dial gives a new connection, and callers give back what they hold. */
  predicate Legal<C(==)>(w: World<C>, e: Event<C>) {
    match e
    case Get(_, dial) => dial.Some? ==> dial.value !in w.dialed
    case Put(c) => c in w.pool.active
    case Remove(c) => c in w.pool.active
    case Cleanup => true
  }

  /** Besides being sound: every connection dialed is active, idle or closed, and only one of these. */
  ghost predicate Inv<C>(w: World<C>, max: nat) {
    Sound(w.pool, max) && Parts(w.dialed, w.pool.active, Elements(w.pool.idle), w.closed)
  }

  /** `all` falls into three disjoint parts. */
  ghost predicate Parts<C>(all: set<C>, active: set<C>, idle: set<C>, closed: set<C>) {
    all == active + idle + closed && active !! idle && closed !! active && closed !! idle
  }

  lemma IdleToClosed<C>(all: set<C>, active: set<C>, idle: set<C>, closed: set<C>, c: C)
    requires Parts(all, active, idle + {c}, closed) && c !in idle
    ensures Parts(all, active, idle, closed + {c}) && active - {c} == active
  {
  }

  lemma IdleToActive<C>(all: set<C>, active: set<C>, idle: set<C>, closed: set<C>, c: C)
    requires Parts(all, active, idle + {c}, closed) && c !in idle
    ensures Parts(all, active + {c}, idle, closed) && |active + {c}| == |active| + 1
  {
  }

  lemma ActiveToIdle<C>(all: set<C>, active: set<C>, idle: set<C>, closed: set<C>, c: C)
    requires Parts(all, active, idle, closed) && c in active
    ensures Parts(all, active - {c}, idle + {c}, closed) && |active - {c}| == |active| - 1 && c !in idle
  {
  }

  lemma ActiveToClosed<C>(all: set<C>, active: set<C>, idle: set<C>, closed: set<C>, c: C)
    requires Parts(all, active, idle, closed) && c in active
    ensures Parts(all, active - {c}, idle, closed + {c}) && |active - {c}| == |active| - 1
  {
  }

  lemma NewActive<C>(all: set<C>, active: set<C>, idle: set<C>, closed: set<C>, c: C)
    requires Parts(all, active, idle, closed) && c !in all
    ensures Parts(all + {c}, active + {c}, idle, closed) && |active + {c}| == |active| + 1
  {
  }

  lemma AllClosed<C>(all: set<C>, active: set<C>, idle: set<C>, closed: set<C>)
    requires Parts(all, active, idle, closed)
    ensures Parts(all, active, {}, closed + idle) && active - idle == active
  {
  }

  lemma PartsDisjoint<C>(all: set<C>, active: set<C>, idle: set<C>, closed: set<C>)
    requires Parts(all, active, idle, closed)
    ensures active !! idle
  {
  }

  lemma ElementsSplit<C>(s: seq<C>)
    requires s != [] && Distinct(s)
    ensures Elements(s) == Elements(s[1..]) + {s[0]} && s[0] !in Elements(s[1..]) && Distinct(s[1..])
  {
  }

  lemma ElementsAppend<C>(s: seq<C>, c: C)
    requires Distinct(s) && c !in Elements(s)
    ensures Elements(s + [c]) == Elements(s) + {c} && Distinct(s + [c])
  {
    assert forall i :: 0 <= i < |s| ==> s[i] in Elements(s);
  }

  /** An expired connection leaves the queue and is closed. */
  lemma ExpireKeeps<C>(w: World<C>, max: nat)
    requires Inv(w, max) && w.pool.idle != []
    ensures var w' := w.(pool := Popped(w.pool), closed := w.closed + {w.pool.idle[0]});
      Inv(w', max) && w'.pool.count + |w'.pool.idle| < max
  {
    hide Elements, Distinct, Parts;
    ElementsSplit(w.pool.idle);
    IdleToClosed(w.dialed, w.pool.active, Elements(w.pool.idle[1..]), w.closed, w.pool.idle[0]);
    PartsDisjoint(w.dialed, w.pool.active, Elements(w.pool.idle[1..]), w.closed + {w.pool.idle[0]});
  }

  /** An idle connection is handed out. */
  lemma ReuseKeeps<C>(w: World<C>, max: nat)
    requires Inv(w, max) && w.pool.idle != []
    ensures Inv(w.(pool := Activated(w.pool.(idle := w.pool.idle[1..]), w.pool.idle[0])), max)
  {
    hide Elements, Distinct, Parts;
    ElementsSplit(w.pool.idle);
    IdleToActive(w.dialed, w.pool.active, Elements(w.pool.idle[1..]), w.closed, w.pool.idle[0]);
    PartsDisjoint(w.dialed, w.pool.active + {w.pool.idle[0]}, Elements(w.pool.idle[1..]), w.closed);
  }

  /** A new connection is handed out. */
  lemma DialKeeps<C>(w: World<C>, c: C, max: nat)
    requires Inv(w, max) && c !in w.dialed && w.pool.count + |w.pool.idle| < max
    ensures Inv(World(Activated(w.pool, c), w.dialed + {c}, w.closed), max)
  {
    hide Elements, Distinct, Parts;
    NewActive(w.dialed, w.pool.active, Elements(w.pool.idle), w.closed, c);
    PartsDisjoint(w.dialed + {c}, w.pool.active + {c}, Elements(w.pool.idle), w.closed);
  }

  lemma GetKeeps<C>(w: World<C>, expired: bool, dial: Option<C>, max: nat)
    requires Inv(w, max) && Legal(w, Get(expired, dial))
    ensures Inv(Step(w, Get(expired, dial), max), max)
  {
    hide Inv, Activated;
    var s := w.pool;
    if s.idle != [] && !expired {
      ReuseKeeps(w, max);
      assert w.closed + {} == w.closed;
    } else {
      var w' := w.(pool := Popped(s), closed := w.closed + GetCloses(s, expired));
      if s.idle != [] {
        ExpireKeeps(w, max);
      } else {
        assert w' == w;
      }
      if s.count < max && dial.Some? {
        DialKeeps(w', dial.value, max);
      }
    }
  }

  lemma PutKeeps<C>(w: World<C>, c: C, max: nat)
    requires Inv(w, max) && c in w.pool.active
    ensures Inv(Step(w, Put(c), max), max) && |w.pool.idle| < max
  {
    hide Elements, Distinct, Parts;
    ActiveToIdle(w.dialed, w.pool.active, Elements(w.pool.idle), w.closed, c);
    ElementsAppend(w.pool.idle, c);
    PartsDisjoint(w.dialed, w.pool.active - {c}, Elements(w.pool.idle) + {c}, w.closed);
  }

  lemma RemoveKeeps<C>(w: World<C>, c: C, max: nat)
    requires Inv(w, max) && c in w.pool.active
    ensures Inv(Step(w, Remove(c), max), max)
  {
    hide Elements, Distinct, Parts;
    ActiveToClosed(w.dialed, w.pool.active, Elements(w.pool.idle), w.closed, c);
    PartsDisjoint(w.dialed, w.pool.active - {c}, Elements(w.pool.idle), w.closed + {c});
  }

  lemma CleanupKeeps<C>(w: World<C>, max: nat)
    requires Inv(w, max)
    ensures Inv(Step(w, Cleanup, max), max)
  {
    hide Elements, Distinct, Parts;
    AllClosed(w.dialed, w.pool.active, Elements(w.pool.idle), w.closed);
    NoElements<C>();
  }

  lemma NoElements<C>()
    ensures Elements<C>([]) == {} && Distinct<C>([])
  {
  }

  ghost function Final<C>(w: World<C>, es: seq<Event<C>>, max: nat): World<C>
    decreases |es|
  {
    if es == [] then w else Final(Step(w, es[0], max), es[1..], max)
  }

  ghost predicate LegalRun<C>(w: World<C>, es: seq<Event<C>>, max: nat)
    decreases |es|
  {
    es == [] || (Legal(w, es[0]) && LegalRun(Step(w, es[0], max), es[1..], max))
  }

  lemma StepKeeps<C>(w: World<C>, e: Event<C>, max: nat)
    requires Inv(w, max) && Legal(w, e)
    ensures Inv(Step(w, e, max), max)
  {
    hide Inv, Step;
    match e
    case Get(expired, dial) => GetKeeps(w, expired, dial, max);
    case Put(c) => PutKeeps(w, c, max);
    case Remove(c) => RemoveKeeps(w, c, max);
    case Cleanup => CleanupKeeps(w, max);
  }

  lemma {:induction false} RunKeeps<C>(w: World<C>, es: seq<Event<C>>, max: nat)
    requires Inv(w, max) && LegalRun(w, es, max)
    ensures Inv(Final(w, es, max), max)
    decreases |es|
  {
    hide Inv, Legal, Step;
    if es != [] {
      StepKeeps(w, es[0], max);
      RunKeeps(Step(w, es[0], max), es[1..], max);
    }
  }

  /**
   In every run in which callers give back only what they hold: the counter is the
   number of active connections, active and idle connections are distinct and at most
   `max`, no connection is lost, and a `Put` finds room in the queue.
   */
  lemma {:induction false} PoolIsSound<C>(es: seq<Event<C>>, max: nat)
    requires LegalRun(Start<C>(), es, max)
    ensures var w := Final(Start<C>(), es, max);
      Inv(w, max) && forall c :: c in w.pool.active ==> |w.pool.idle| < max
  {
    hide Final, LegalRun;
    var w0 := Start<C>();
    RunKeeps(w0, es, max);
    var w := Final(w0, es, max);
    forall c | c in w.pool.active ensures |w.pool.idle| < max {
      PutKeeps(w, c, max);
    }
  }

  /** Exactly which connections may be put back: a wrong one corrupts the pool. */
  lemma PutSound<C>(s: State<C>, c: C, max: nat)
    requires Sound(s, max)
    ensures Sound(PutStep(s, max, c), max)
       <==> c in s.active || (s.active == {} && (c !in s.idle || |s.idle| == max))
  {
    assert c in s.active ==> |s.active - {c}| == |s.active| - 1;
    assert c !in s.active ==> s.active - {c} == s.active;
    var idle := s.idle + [c];
    assert Elements(idle) == Elements(s.idle) + {c};
    if c in s.idle {
      var i :| 0 <= i < |s.idle| && s.idle[i] == c;
      assert idle[i] == idle[|s.idle|];
    }
  }

  /** Exactly which connections may be removed. */
  lemma RemoveSound<C>(s: State<C>, c: C, max: nat)
    requires Sound(s, max)
    ensures Sound(Deactivated(s, c), max) <==> c in s.active || s.active == {}
  {
    assert c in s.active ==> |s.active - {c}| == |s.active| - 1;
    assert c !in s.active ==> s.active - {c} == s.active;
  }
}
