/**
 The session manager: sixteen maps, one for each value of an ID's low four bits,
 that must behave as one map.
 */
module SessionStore {
  import opened Wrappers

  const SHARDS := 16

  // ---------------------------------------------------------------------------
  // Which shard

  /** The number that the `n` lowest bits of a number in two's complement form. */
  function LowBits(id: int, n: nat): nat
    decreases n
  {
    if n == 0 then 0 else id % 2 + 2 * LowBits(id / 2, n - 1)
  }

  lemma HalveBy4(x: int)
    ensures x % 4 == x % 2 + 2 * (x / 2 % 2)
  {
  }

  lemma HalveBy8(x: int)
    ensures x % 8 == x % 2 + 2 * (x / 2 % 4)
  {
    var q, r := x / 8, x % 8;
    assert x / 2 == 4 * q + r / 2;
    assert x / 2 % 4 == r / 2;
    assert x % 2 == r % 2;
  }

  lemma HalveBy16(x: int)
    ensures x % 16 == x % 2 + 2 * (x / 2 % 8)
  {
    var q, r := x / 16, x % 16;
    assert x / 2 == 8 * q + r / 2;
    assert x / 2 % 8 == r / 2;
    assert x % 2 == r % 2;
  }

  lemma LowBitsNext(id: int, n: nat)
    requires n > 0
    ensures LowBits(id, n) == id % 2 + 2 * LowBits(id / 2, n - 1) && LowBits(id, 0) == 0
  {
  }

  /** The four lowest bits of any integer, negative ones included, are its remainder by 16. */
  lemma LowBitsRemainder(id: int)
    ensures LowBits(id, 4) == id % 16
  {
    hide LowBits;
    var h, k, m := id / 2, id / 2 / 2, id / 2 / 2 / 2;
    LowBitsNext(id, 4);
    LowBitsNext(h, 3);
    LowBitsNext(k, 2);
    LowBitsNext(m, 1);
    LowBitsNext(m / 2, 1);
    HalveBy16(id);
    HalveBy8(h);
    HalveBy4(k);
  }

  /** `sessionID & 0xF`. */
  function Shard(id: int): (i: nat)
    ensures i < SHARDS && i == id % SHARDS
  {
    LowBitsRemainder(id);
    LowBits(id, 4)
  }

  type Table<V> = map<int, V>

  /** The one map that the shards stand for. */
  function Merge<V>(shards: seq<Table<V>>): Table<V> {
    if shards == [] then map[]
    else Merge(shards[..|shards| - 1]) + shards[|shards| - 1]
  }

  /** Every ID is in the shard that its low bits name. */
  predicate Apart<V>(shards: seq<Table<V>>) {
    forall i, id :: 0 <= i < |shards| && id in shards[i] ==> Shard(id) == i
  }

  predicate Sharded<V>(shards: seq<Table<V>>) {
    |shards| == SHARDS && Apart(shards)
  }

  lemma {:induction false} MergeLookup<V>(shards: seq<Table<V>>, id: int)
    requires Apart(shards)
    ensures id in Merge(shards) <==> Shard(id) < |shards| && id in shards[Shard(id)]
    ensures id in Merge(shards) ==> Merge(shards)[id] == shards[Shard(id)][id]
    decreases |shards|
  {
    if shards != [] {
      MergeLookup(shards[..|shards| - 1], id);
    }
  }

  function Sizes<V>(shards: seq<Table<V>>): nat {
    if shards == [] then 0 else Sizes(shards[..|shards| - 1]) + |shards[|shards| - 1]|
  }

  lemma UnionSize<V>(m: Table<V>, n: Table<V>)
    requires m.Keys !! n.Keys
    ensures |m + n| == |m| + |n|
  {
    assert (m + n).Keys == m.Keys + n.Keys;
    assert |m + n| == |(m + n).Keys| && |m| == |m.Keys| && |n| == |n.Keys|;
  }

  lemma {:induction false} MergeSize<V>(shards: seq<Table<V>>)
    requires Apart(shards)
    ensures |Merge(shards)| == Sizes(shards)
    decreases |shards|
  {
    if shards != [] {
      var n := |shards| - 1;
      MergeSize(shards[..n]);
      forall id | id in Merge(shards[..n]) ensures id !in shards[n] {
        MergeLookup(shards[..n], id);
      }
      UnionSize(Merge(shards[..n]), shards[n]);
    }
  }

  /** What a table maps its IDs to. */
  function Values<V(==)>(m: Table<V>): set<V> {
    set id | id in m :: m[id]
  }

  function AllValues<V(==)>(shards: seq<Table<V>>): set<V> {
    if shards == [] then {} else AllValues(shards[..|shards| - 1]) + Values(shards[|shards| - 1])
  }

  lemma {:induction false} MergeValues<V>(shards: seq<Table<V>>)
    requires Apart(shards)
    ensures AllValues(shards) == Values(Merge(shards))
    decreases |shards|
  {
    if shards != [] {
      var n := |shards| - 1;
      var m := Merge(shards[..n]);
      MergeValues(shards[..n]);
      forall id | id in m ensures (m + shards[n])[id] == m[id] {
        MergeLookup(shards[..n], id);
      }
      forall id | id in shards[n] ensures (m + shards[n])[id] == shards[n][id] {
      }
    }
  }

  // ---------------------------------------------------------------------------
  // Operations on the shards and on the one map

  function Keep<V(==)>(m: Table<V>, idle: set<V>): Table<V> {
    map id | id in m && m[id] !in idle :: m[id]
  }

  function KeepAll<V(==)>(shards: seq<Table<V>>, idle: set<V>): (r: seq<Table<V>>)
    ensures |r| == |shards| && forall i :: 0 <= i < |r| ==> r[i] == Keep(shards[i], idle)
  {
    if shards == [] then []
    else KeepAll(shards[..|shards| - 1], idle) + [Keep(shards[|shards| - 1], idle)]
  }

  /** The calls; `CleanupIdle` is given the sessions that are past the timeout when it runs. */
  datatype Op<V> =
    | Add(id: int, v: V)
    | Get(id: int)
    | Remove(id: int)
    | Count
    | CleanupIdle(idle: set<V>)
    | GetAll

  datatype Reply<V> = Done | Found(v: V) | Missing | Size(n: int) | All(sessions: set<V>)

  /** A call on the shards, shard by shard as the code does it. */
  function ShardedCall<V(==)>(shards: seq<Table<V>>, op: Op<V>): (seq<Table<V>>, Reply<V>)
    requires |shards| == SHARDS
  {
    match op
    case Add(id, v) => (shards[Shard(id) := shards[Shard(id)][id := v]], Done)
    case Get(id) => (shards, if id in shards[Shard(id)] then Found(shards[Shard(id)][id]) else Missing)
    case Remove(id) => (shards[Shard(id) := shards[Shard(id)] - {id}], Done)
    case Count => (shards, Size(Sizes(shards)))
    case CleanupIdle(idle) => (KeepAll(shards, idle), Size(Sizes(shards) - Sizes(KeepAll(shards, idle))))
    case GetAll => (shards, All(AllValues(shards)))
  }

  /** The same call on one map. */
  function PlainCall<V(==)>(m: Table<V>, op: Op<V>): (Table<V>, Reply<V>) {
    match op
    case Add(id, v) => (m[id := v], Done)
    case Get(id) => (m, if id in m then Found(m[id]) else Missing)
    case Remove(id) => (m - {id}, Done)
    case Count => (m, Size(|m|))
    case CleanupIdle(idle) => (Keep(m, idle), Size(|set id | id in m && m[id] in idle|))
    case GetAll => (m, All(Values(m)))
  }

  lemma KeepSize<V>(m: Table<V>, idle: set<V>)
    ensures |m| - |Keep(m, idle)| == |set id | id in m && m[id] in idle|
  {
    var gone := set id | id in m && m[id] in idle;
    assert m.Keys == Keep(m, idle).Keys + gone;
    assert |m| == |m.Keys| && |Keep(m, idle)| == |Keep(m, idle).Keys|;
  }

  lemma {:induction false} UpdateMerges<V>(shards: seq<Table<V>>, op: Op<V>)
    requires Sharded(shards) && (op.Add? || op.Remove?)
    ensures Sharded(ShardedCall(shards, op).0)
    ensures Merge(ShardedCall(shards, op).0) == PlainCall(Merge(shards), op).0
  {
    hide Merge;
    var shards', m' := ShardedCall(shards, op).0, PlainCall(Merge(shards), op).0;
    forall id: int
      ensures id in Merge(shards') <==> id in m'
      ensures id in m' ==> Merge(shards')[id] == m'[id]
    {
      MergeLookup(shards, id);
      MergeLookup(shards', id);
    }
  }

  lemma {:induction false} CleanupMerges<V>(shards: seq<Table<V>>, idle: set<V>)
    requires Sharded(shards)
    ensures Sharded(KeepAll(shards, idle))
    ensures Merge(KeepAll(shards, idle)) == Keep(Merge(shards), idle)
  {
    hide Merge, KeepAll;
    var shards' := KeepAll(shards, idle);
    forall id: int
      ensures id in Merge(shards') <==> id in Keep(Merge(shards), idle)
      ensures id in Merge(shards') ==> Merge(shards')[id] == Keep(Merge(shards), idle)[id]
    {
      MergeLookup(shards, id);
      MergeLookup(shards', id);
    }
  }

  /** Every call on the shards does to the one map, and answers, what the call on the one map does. */
  lemma {:induction false} CallRefines<V>(shards: seq<Table<V>>, op: Op<V>)
    requires Sharded(shards)
    ensures Sharded(ShardedCall(shards, op).0)
    ensures PlainCall(Merge(shards), op) == (Merge(ShardedCall(shards, op).0), ShardedCall(shards, op).1)
  {
    hide Merge, KeepAll, Keep, Sizes, AllValues;
    match op
    case Add(_, _) => UpdateMerges(shards, op);
    case Remove(_) => UpdateMerges(shards, op);
    case Get(id) => MergeLookup(shards, id);
    case Count => MergeSize(shards);
    case CleanupIdle(idle) =>
      CleanupMerges(shards, idle);
      MergeSize(shards);
      MergeSize(KeepAll(shards, idle));
      KeepSize(Merge(shards), idle);
    case GetAll => MergeValues(shards);
  }

  function ShardedRun<V(==)>(shards: seq<Table<V>>, ops: seq<Op<V>>): (seq<Table<V>>, seq<Reply<V>>)
    requires |shards| == SHARDS
    decreases |ops|
  {
    if ops == [] then (shards, [])
    else
      var (next, reply) := ShardedCall(shards, ops[0]);
      var (last, replies) := ShardedRun(next, ops[1..]);
      (last, [reply] + replies)
  }

  function PlainRun<V(==)>(m: Table<V>, ops: seq<Op<V>>): (Table<V>, seq<Reply<V>>)
    decreases |ops|
  {
    if ops == [] then (m, [])
    else
      var (next, reply) := PlainCall(m, ops[0]);
      var (last, replies) := PlainRun(next, ops[1..]);
      (last, [reply] + replies)
  }

  lemma {:induction false} RunRefinesFrom<V>(shards: seq<Table<V>>, ops: seq<Op<V>>)
    requires Sharded(shards)
    ensures PlainRun(Merge(shards), ops) == (Merge(ShardedRun(shards, ops).0), ShardedRun(shards, ops).1)
    decreases |ops|
  {
    hide Merge, ShardedCall, PlainCall;
    if ops != [] {
      CallRefines(shards, ops[0]);
      RunRefinesFrom(ShardedCall(shards, ops[0]).0, ops[1..]);
    }
  }

  function NoSessions<V>(n: nat): (r: seq<Table<V>>)
    ensures |r| == n && forall i :: 0 <= i < n ==> r[i] == map[]
  {
    if n == 0 then [] else NoSessions(n - 1) + [map[]]
  }

  /** A new manager gives every sequence of calls the answers that one empty map gives. */
  lemma {:induction false} RunRefines<V>(ops: seq<Op<V>>)
    ensures ShardedRun(NoSessions<V>(SHARDS), ops).1 == PlainRun(map[], ops).1
    ensures Merge(ShardedRun(NoSessions<V>(SHARDS), ops).0) == PlainRun(map[], ops).0
  {
    hide NoSessions;
    var shards := NoSessions<V>(SHARDS);
    forall id: int ensures id !in Merge(shards) {
      MergeLookup(shards, id);
    }
    assert Merge(shards) == map[];
    RunRefinesFrom(shards, ops);
  }

  // ---------------------------------------------------------------------------
  // The manager

  class Conn {
    var closed: bool

    method Close()
      modifies this
      ensures closed
    {
      closed := true;
    }
  }

  class Session {
    const sessionID: int
    const clientConn: Conn?
    const backendConn: Conn?
    var lastActiveAt: int

    constructor (sessionID: int, clientConn: Conn?, backendConn: Conn?, now: int)
      ensures this.sessionID == sessionID && this.clientConn == clientConn && this.backendConn == backendConn
      ensures lastActiveAt == now
    {
      this.sessionID, this.clientConn, this.backendConn := sessionID, clientConn, backendConn;
      lastActiveAt := now;
    }

    ghost function Conns(): set<Conn> {
      (if clientConn != null then {clientConn} else {}) + (if backendConn != null then {backendConn} else {})
    }

    method CloseConns()
      modifies Conns()
      ensures forall c :: c in Conns() ==> c.closed
    {
      if clientConn != null {
        clientConn.Close();
      }
      if backendConn != null {
        backendConn.Close();
      }
    }
  }

  /** The sessions past the timeout. */
  ghost function Idle(sessions: set<Session>, now: int, timeout: int): set<Session>
    reads sessions
  {
    set s | s in sessions && now - s.lastActiveAt > timeout
  }

  ghost function AllConns(sessions: set<Session>): set<Conn> {
    set s, c | s in sessions && c in s.Conns() :: c
  }

  class Manager {
    const shards: array<Table<Session>>

    ghost predicate Valid()
      reads shards
    {
      && shards.Length == SHARDS && Apart(shards[..])
      && forall i :: 0 <= i < SHARDS ==> Keyed(shards[i])
    }

    /** The sessions by ID. */
    ghost function Contents(): Table<Session>
      reads shards
    {
      Merge(shards[..])
    }

    constructor ()
      ensures Valid() && fresh(shards) && shards[..] == NoSessions(SHARDS) && Contents() == map[]
    {
      shards := new Table<Session>[SHARDS](_ => map[]);
      new;
      assert shards[..] == NoSessions(SHARDS);
      RunRefines<Session>([]);
    }

    method AddSession(session: Session)
      requires Valid()
      modifies shards
      ensures Valid()
      ensures shards[..] == ShardedCall(old(shards[..]), Add(session.sessionID, session)).0
      ensures Contents() == old(Contents())[session.sessionID := session]
    {
      var id := session.sessionID;
      UpdateMerges(shards[..], Add(id, session));
      shards[Shard(id)] := shards[Shard(id)][id := session];
      assert shards[..] == ShardedCall(old(shards[..]), Add(id, session)).0;
    }

    method GetSession(id: int) returns (session: Session?, ok: bool)
      requires Valid()
      ensures ok == (id in Contents()) && session == (if ok then Contents()[id] else null)
    {
      MergeLookup(shards[..], id);
      ok := id in shards[Shard(id)];
      session := if ok then shards[Shard(id)][id] else null;
    }

    method RemoveSession(id: int)
      requires Valid()
      modifies shards
      ensures Valid()
      ensures shards[..] == ShardedCall(old(shards[..]), Remove(id)).0
      ensures Contents() == old(Contents()) - {id}
    {
      UpdateMerges(shards[..], Remove(id));
      shards[Shard(id)] := shards[Shard(id)] - {id};
      assert shards[..] == ShardedCall(old(shards[..]), Remove(id)).0;
    }

    method UpdateLastActive(id: int, now: int)
      requires Valid()
      modifies Values(Contents())
      ensures Valid() && shards[..] == old(shards[..])
      ensures forall s :: s in old(Values(Contents())) ==>
        s.lastActiveAt == if s.sessionID == id then now else old(s.lastActiveAt)
    {
      hide Merge;
      ghost var m := Contents();
      forall other | other in m ensures m[other].sessionID == other {
        MergeLookup(shards[..], other);
      }
      MergeLookup(shards[..], id);
      if id in shards[Shard(id)] {
        var session := shards[Shard(id)][id];
        assert session in Values(m);
        session.lastActiveAt := now;
      }
    }

    method CountSessions() returns (total: nat)
      requires Valid()
      ensures total == |Contents()|
    {
      total := 0;
      for i := 0 to SHARDS
        invariant total == Sizes(shards[..i])
      {
        assert shards[..i + 1][..i] == shards[..i];
        total := total + |shards[i]|;
      }
      assert shards[..SHARDS] == shards[..];
      MergeSize(shards[..]);
    }

    method CleanupIdleSessions(now: int, timeout: int) returns (total: int)
      requires Valid()
      modifies shards, AllConns(AllValues(shards[..]))
      ensures var idle := old(Idle(Values(Contents()), now, timeout));
        && shards[..] == ShardedCall(old(shards[..]), CleanupIdle(idle)).0
        && (Contents(), Size(total)) == PlainCall(old(Contents()), CleanupIdle(idle))
        && (forall c: Conn :: old(allocated(c)) ==> c.closed == (old(c.closed) || c in AllConns(idle)))
      ensures forall s: Session :: s in old(Values(Contents())) ==>
        (s in Values(Contents()) <==> now - old(s.lastActiveAt) <= timeout)
      ensures Valid()
    {
      hide Merge, Shard, Keep, Keyed, PlainCall, Apart, AllConns, Values, Idle, AllValues, KeepAll, ShardedCall, Swept;
      ghost var was := shards[..];
      ghost var sessions := AllValues(was);
      ghost var idle := Idle(sessions, now, timeout);
      MergeValues(was);
      IdleMeans(sessions, now, timeout);
      SweptNone(was, idle);
      total := 0;
      for i := 0 to SHARDS
        invariant Swept(was, shards[..], i, idle, total) && idle == Idle(sessions, now, timeout)
        invariant forall c: Conn :: old(allocated(c)) ==>
          c.closed == (old(c.closed) || c in AllConns(AllValues(was[..i]) * idle))
      {
        SweptNext(was, shards[..], i, idle, total);
        IdleOf(was, i, now, timeout);
        var kept, count := CleanTable(shards[i], now, timeout);
        ghost var before := shards[..];
        shards[i] := kept;
        assert shards[..] == before[i := kept];
        total := total + count;
      }
      SweptAll(was, shards[..], now, timeout, total);
      CleanedValues(Merge(was), idle);
    }

    method GetAllSessions() returns (all: seq<Session>)
      requires Valid()
      ensures |all| == |Contents()| && Elements(all) == Values(Contents())
      ensures forall j, k :: 0 <= j < k < |all| ==> all[j] != all[k]
    {
      hide Merge, Apart, Keyed, Values, AllValues, LowBits;
      assert Elements<Session>([]) == AllValues(shards[..0]) by { NoValues(shards[..]); }
      all := [];
      for i := 0 to SHARDS
        invariant |all| == Sizes(shards[..i]) && Elements(all) == AllValues(shards[..i])
        invariant forall s :: s in Elements(all) ==> Shard(s.sessionID) < i
        invariant forall j, k :: 0 <= j < k < |all| ==> all[j] != all[k]
      {
        assert shards[..i + 1][..i] == shards[..i];
        ValuesNext(shards[..], i);
        var sessions := ListTable(shards[i]);
        forall s | s in Elements(sessions) ensures Shard(s.sessionID) == i {
          ShardOf(shards[..], i, s);
        }
        forall j, k | 0 <= j < |all| && 0 <= k < |sessions| ensures all[j] != sessions[k] {
          assert all[j] in Elements(all) && sessions[k] in Elements(sessions);
        }
        assert Elements(all + sessions) == Elements(all) + Elements(sessions);
        all := all + sessions;
      }
      assert shards[..SHARDS] == shards[..];
      MergeSize(shards[..]);
      MergeValues(shards[..]);
    }
  }

  lemma NoValues(shards: seq<Table<Session>>)
    ensures AllValues(shards[..0]) == {} && Elements<Session>([]) == {}
  {
  }

  lemma ValuesNext(shards: seq<Table<Session>>, i: nat)
    requires i < |shards|
    ensures AllValues(shards[..i + 1]) == AllValues(shards[..i]) + Values(shards[i])
  {
    assert shards[..i + 1][..i] == shards[..i];
  }

  lemma ShardOf(shards: seq<Table<Session>>, i: nat, s: Session)
    requires i < |shards| && Apart(shards) && Keyed(shards[i]) && s in Values(shards[i])
    ensures Shard(s.sessionID) == i
  {
  }

  predicate Keyed(m: Table<Session>) {
    forall id :: id in m ==> m[id].sessionID == id
  }

  lemma SomeMember(ids: set<int>)
    requires ids != {}
    ensures exists id :: id in ids
  {
    if forall id :: id !in ids { assert false; }
  }

  /** The inner loop of `GetAll`. */
  method ListTable(m: Table<Session>) returns (sessions: seq<Session>)
    requires Keyed(m)
    ensures |sessions| == |m| && Elements(sessions) == Values(m)
    ensures forall j, k :: 0 <= j < k < |sessions| ==> sessions[j] != sessions[k]
  {
    var todo := m.Keys;
    sessions := [];
    while todo != {}
      invariant todo <= m.Keys && |sessions| + |todo| == |m|
      invariant forall s :: s in Elements(sessions) <==> s.sessionID in m.Keys - todo && m[s.sessionID] == s
      invariant forall j, k :: 0 <= j < k < |sessions| ==> sessions[j] != sessions[k]
      decreases todo
    {
      SomeMember(todo);
      var id :| id in todo;
      assert m[id] !in Elements(sessions);
      assert Elements(sessions + [m[id]]) == Elements(sessions) + {m[id]};
      sessions := sessions + [m[id]];
      todo := todo - {id};
    }
  }

  /** The idle sessions that the loop of `CleanupIdle` has passed. */
  ghost function Passed(idle: set<Session>, todo: set<int>): set<Session> {
    set s | s in idle && s.sessionID !in todo
  }

  lemma PassedNext(m: Table<Session>, idle: set<Session>, todo: set<int>, id: int)
    requires Keyed(m) && idle <= Values(m) && id in todo && todo <= m.Keys
    ensures m[id] in idle ==> Passed(idle, todo - {id}) == Passed(idle, todo) + {m[id]}
    ensures m[id] !in idle ==> Passed(idle, todo - {id}) == Passed(idle, todo)
  {
  }

  lemma KeepNext(m: Table<Session>, gone: set<Session>, id: int)
    requires Keyed(m) && id in m
    ensures Keep(m, gone) - {id} == Keep(m, gone + {m[id]})
  {
    forall k: int ensures k in Keep(m, gone) - {id} <==> k in Keep(m, gone + {m[id]}) {
    }
  }

  lemma AllConnsNext(gone: set<Session>, s: Session)
    ensures AllConns(gone + {s}) == AllConns(gone) + s.Conns()
  {
  }

  lemma ConnsOf(m: Table<Session>, id: int)
    requires id in m
    ensures m[id] in Values(m) && m[id].Conns() <= AllConns(Values(m))
  {
  }

  /** The inner loop of `CleanupIdle`. */
  method CleanTable(m: Table<Session>, now: int, timeout: int) returns (kept: Table<Session>, count: nat)
    requires Keyed(m)
    modifies AllConns(Values(m))
    ensures var idle := old(Idle(Values(m), now, timeout));
      && kept == Keep(m, idle)
      && count == |m| - |kept|
      && (forall c: Conn :: old(allocated(c)) ==> c.closed == (old(c.closed) || c in AllConns(idle)))
  {
    hide Passed, AllConns, Values, Session.Conns, Keyed;
    var todo := m.Keys;
    kept, count := m, 0;
    ghost var idle := Idle(Values(m), now, timeout);
    PassedNone(m, idle);
    while todo != {}
      invariant todo <= m.Keys && count + |kept| == |m|
      invariant kept == Keep(m, Passed(idle, todo)) && todo <= kept.Keys
      invariant forall c: Conn :: old(allocated(c)) ==> c.closed == (old(c.closed) || c in AllConns(Passed(idle, todo)))
      decreases todo
    {
      SomeMember(todo);
      var id :| id in todo;
      var session := kept[id];
      ConnsOf(m, id);
      PassedNext(m, idle, todo, id);
      if now - session.lastActiveAt > timeout {
        session.CloseConns();
        kept := kept - {id};
        count := count + 1;
        KeepNext(m, Passed(idle, todo), id);
        AllConnsNext(Passed(idle, todo), session);
      }
      todo := todo - {id};
    }
    PassedAll(idle);
  }

  lemma PassedNone(m: Table<Session>, idle: set<Session>)
    requires Keyed(m) && idle <= Values(m)
    ensures Passed(idle, m.Keys) == {} && Keep(m, {}) == m && AllConns({}) == {}
  {
  }

  lemma PassedAll(idle: set<Session>)
    ensures Passed(idle, {}) == idle
  {
  }

  /** `CleanupIdle` after `i` shards: those are swept, the others as they were. */
  ghost predicate Swept(was: seq<Table<Session>>, now: seq<Table<Session>>, i: nat, idle: set<Session>, total: int) {
    && |now| == |was| && i <= |was|
    && (forall k :: 0 <= k < |was| ==> now[k] == if k < i then Keep(was[k], idle) else was[k])
    && total == Sizes(was[..i]) - Sizes(now[..i])
  }

  lemma SweptNone(was: seq<Table<Session>>, idle: set<Session>)
    ensures Swept(was, was, 0, idle, 0) && AllConns(AllValues(was[..0]) * idle) == {}
  {
  }

  lemma {:induction false} SweptNext(was: seq<Table<Session>>, now: seq<Table<Session>>,
                                     i: nat, idle: set<Session>, total: int)
    requires Swept(was, now, i, idle, total) && i < |was|
    ensures now[i] == was[i]
    ensures var kept := Keep(was[i], idle); Swept(was, now[i := kept], i + 1, idle, total + |was[i]| - |kept|)
  {
    var next := now[i := Keep(was[i], idle)];
    assert was[..i + 1][..i] == was[..i] && next[..i + 1][..i] == now[..i];
  }

  lemma {:induction false} SweptAll(was: seq<Table<Session>>, now: seq<Table<Session>>,
                                    at: int, timeout: int, total: int)
    requires Sharded(was) && (forall i :: 0 <= i < SHARDS ==> Keyed(was[i]))
    requires Swept(was, now, SHARDS, Idle(AllValues(was), at, timeout), total)
    ensures var idle := Idle(AllValues(was), at, timeout);
      && now == ShardedCall(was, CleanupIdle(idle)).0 && Sharded(now)
      && (Merge(now), Size(total)) == PlainCall(Merge(was), CleanupIdle(idle))
      && AllValues(was[..SHARDS]) * idle == idle
    ensures forall i :: 0 <= i < SHARDS ==> Keyed(now[i])
  {
    hide Merge, Keep, Keyed, PlainCall, Apart, AllValues, Sizes;
    var idle := Idle(AllValues(was), at, timeout);
    assert was[..SHARDS] == was && now[..SHARDS] == now;
    assert now == KeepAll(was, idle);
    CallRefines(was, CleanupIdle(idle));
    forall i | 0 <= i < SHARDS ensures Keyed(now[i]) {
      KeepKeyed(was[i], idle);
    }
  }

  lemma {:induction false} OneOfAll(shards: seq<Table<Session>>, i: nat)
    requires i < |shards|
    ensures Values(shards[i]) <= AllValues(shards)
    decreases |shards|
  {
    if i < |shards| - 1 {
      OneOfAll(shards[..|shards| - 1], i);
    }
  }

  /** One shard's part of the idle sessions. */
  lemma {:induction false} IdleOf(shards: seq<Table<Session>>, i: nat, now: int, timeout: int)
    requires i < |shards|
    ensures var all := AllValues(shards);
      var idle, here := Idle(all, now, timeout), Idle(Values(shards[i]), now, timeout);
      && Keep(shards[i], here) == Keep(shards[i], idle)
      && AllConns(AllValues(shards[..i + 1]) * idle) == AllConns(AllValues(shards[..i]) * idle) + AllConns(here)
      && AllConns(Values(shards[i])) <= AllConns(all)
  {
    OneOfAll(shards, i);
    var idle, here := Idle(AllValues(shards), now, timeout), Idle(Values(shards[i]), now, timeout);
    assert here == idle * Values(shards[i]);
    assert shards[..i + 1][..i] == shards[..i];
    assert AllValues(shards[..i + 1]) * idle == AllValues(shards[..i]) * idle + here;
    AllConnsUnion(AllValues(shards[..i]) * idle, here);
    AllConnsUnion(AllValues(shards), Values(shards[i]));
    assert AllValues(shards) + Values(shards[i]) == AllValues(shards);
    KeepSame(shards[i], here, idle);
  }

  lemma KeepSame(m: Table<Session>, here: set<Session>, idle: set<Session>)
    requires here == idle * Values(m)
    ensures Keep(m, here) == Keep(m, idle)
  {
    forall id | id in m ensures m[id] in here <==> m[id] in idle {
    }
  }

  lemma IdleMeans(sessions: set<Session>, now: int, timeout: int)
    ensures forall s :: s in sessions ==> (s in Idle(sessions, now, timeout) <==> now - s.lastActiveAt > timeout)
  {
  }

  /** A cleanup takes just the idle sessions out. */
  lemma CleanedValues(m: Table<Session>, idle: set<Session>)
    ensures Values(PlainCall(m, CleanupIdle(idle)).0) == Values(m) - idle
  {
    var kept := Keep(m, idle);
    forall s | s in Values(m) - idle ensures s in Values(kept) {
      var id :| id in m && m[id] == s;
      assert id in kept && kept[id] == s;
    }
  }

  lemma KeepKeyed(m: Table<Session>, idle: set<Session>)
    requires Keyed(m)
    ensures Keyed(Keep(m, idle))
  {
  }

  lemma AllConnsUnion(a: set<Session>, b: set<Session>)
    ensures AllConns(a + b) == AllConns(a) + AllConns(b)
  {
  }
}
