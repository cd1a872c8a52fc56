/**
 Round-robin tickets: concurrent callers of `routeRoundRobin`, step by step.  A caller
 looks its counter up under the read lock, creates it under the write lock if it was
 missing - unless another caller has by then - and adds to it atomically.
 */
module RoundRobin {
  import opened Arithmetic

  datatype Pc =
    | Looking
    | Missing              // the counter was not there; about to take the write lock
    | Drawing(cell: nat)   // about to add to this counter
    | Done(ticket: nat)

  datatype Caller = Caller(key: string, pc: Pc)

  /** The counter that each key points to, the counters' values, and the callers so far. */
  datatype State = State(counters: map<string, nat>, cells: seq<nat>, callers: seq<Caller>)

  datatype Action = Call(key: string) | Step(caller: nat)

  const Init := State(map[], [], [])

  predicate Enabled(s: State, a: Action) {
    a.Call? || (a.caller < |s.callers| && !s.callers[a.caller].pc.Done?
                && (s.callers[a.caller].pc.Drawing? ==> s.callers[a.caller].pc.cell < |s.cells|))
  }

  /** Adds the counter of `key` unless it is there. */
  function Created(s: State, key: string): State {
    if key in s.counters then s
    else s.(counters := s.counters[key := |s.cells|], cells := s.cells + [0])
  }

  function At(s: State, i: nat, pc: Pc): State
    requires i < |s.callers|
  {
    s.(callers := s.callers[i := Caller(s.callers[i].key, pc)])
  }

  function Do(s: State, a: Action): State
    requires Enabled(s, a)
  {
    match a
    case Call(key) => s.(callers := s.callers + [Caller(key, Looking)])
    case Step(i) =>
      var key := s.callers[i].key;
      match s.callers[i].pc
      case Looking => At(s, i, if key in s.counters then Drawing(s.counters[key]) else Missing)
      case Missing => At(Created(s, key), i, Drawing(Created(s, key).counters[key]))
      case Drawing(cell) => At(s.(cells := s.cells[cell := s.cells[cell] + 1]), i, Done(s.cells[cell]))
  }

  predicate Runs(s: State, actions: seq<Action>)
    decreases |actions|
  {
    actions == [] || (Enabled(s, actions[0]) && Runs(Do(s, actions[0]), actions[1..]))
  }

  function Final(s: State, actions: seq<Action>): State
    requires Runs(s, actions)
    decreases |actions|
  {
    if actions == [] then s else Final(Do(s, actions[0]), actions[1..])
  }

  // ---------------------------------------------------------------------------
  // Every ticket once

  /** A key has one counter, no two keys share one, and who draws does so from its key's. */
  predicate Wired(s: State) {
    && (forall k :: k in s.counters ==> s.counters[k] < |s.cells|)
    && (forall k, m :: k in s.counters && m in s.counters && s.counters[k] == s.counters[m] ==> k == m)
    && (forall i :: 0 <= i < |s.callers| && s.callers[i].pc.Drawing? ==>
          s.callers[i].key in s.counters && s.counters[s.callers[i].key] == s.callers[i].pc.cell)
  }

  /** How many tickets of `key` have been drawn. */
  function Drawn(s: State, key: string): nat {
    if key in s.counters && s.counters[key] < |s.cells| then s.cells[s.counters[key]] else 0
  }

  predicate Holds(s: State, i: nat, key: string, ticket: int) {
    i < |s.callers| && s.callers[i].key == key && s.callers[i].pc.Done? && s.callers[i].pc.ticket == ticket
  }

  ghost predicate Given(s: State, key: string, ticket: int) {
    exists i: nat :: Holds(s, i, key, ticket)
  }

  ghost predicate TicketsOnce(s: State, key: string) {
    && (forall i: nat, t :: Holds(s, i, key, t) ==> 0 <= t < Drawn(s, key))
    && (forall i: nat, j: nat, t :: Holds(s, i, key, t) && Holds(s, j, key, t) ==> i == j)
    && (forall t :: 0 <= t < Drawn(s, key) ==> Given(s, key, t))
  }

  lemma SameTickets(s: State, s': State, key: string)
    requires TicketsOnce(s, key) && Drawn(s', key) == Drawn(s, key)
    requires forall i: nat, t :: Holds(s', i, key, t) <==> Holds(s, i, key, t)
    ensures TicketsOnce(s', key)
  {
    hide Drawn, Holds;
    forall t | 0 <= t < Drawn(s', key) ensures Given(s', key, t) {
      assert Given(s, key, t);
      var i: nat :| Holds(s, i, key, t);
      assert Holds(s', i, key, t);
    }
  }

  lemma CallKeeps(s: State, caller: string, key: string)
    requires Wired(s) && TicketsOnce(s, key)
    ensures Wired(Do(s, Call(caller))) && TicketsOnce(Do(s, Call(caller)), key)
  {
    var s' := Do(s, Call(caller));
    forall i: nat, t ensures Holds(s', i, key, t) <==> Holds(s, i, key, t) {
    }
    SameTickets(s, s', key);
  }

  lemma LookKeeps(s: State, i: nat, key: string)
    requires Wired(s) && TicketsOnce(s, key) && Enabled(s, Step(i)) && s.callers[i].pc.Looking?
    ensures Wired(Do(s, Step(i))) && TicketsOnce(Do(s, Step(i)), key)
  {
    var s' := Do(s, Step(i));
    forall j: nat, t ensures Holds(s', j, key, t) <==> Holds(s, j, key, t) {
    }
    SameTickets(s, s', key);
  }

  lemma CreateKeeps(s: State, i: nat, key: string)
    requires Wired(s) && TicketsOnce(s, key) && Enabled(s, Step(i)) && s.callers[i].pc.Missing?
    ensures Wired(Do(s, Step(i))) && TicketsOnce(Do(s, Step(i)), key)
  {
    var s' := Do(s, Step(i));
    forall j: nat, t ensures Holds(s', j, key, t) <==> Holds(s, j, key, t) {
    }
    SameTickets(s, s', key);
  }

  lemma DrawKeeps(s: State, i: nat, key: string)
    requires Wired(s) && TicketsOnce(s, key) && Enabled(s, Step(i)) && s.callers[i].pc.Drawing?
    ensures Wired(Do(s, Step(i))) && TicketsOnce(Do(s, Step(i)), key)
  {
    var s' := Do(s, Step(i));
    var mine := s.callers[i].key == key;
    assert Drawn(s', key) == Drawn(s, key) + if mine then 1 else 0;
    forall j: nat, t ensures Holds(s', j, key, t) <==> Holds(s, j, key, t) || (mine && j == i && t == Drawn(s, key)) {
    }
    forall t | 0 <= t < Drawn(s', key) ensures Given(s', key, t) {
      if t < Drawn(s, key) {
        assert Given(s, key, t);
        var j: nat :| Holds(s, j, key, t);
        assert Holds(s', j, key, t);
      } else {
        assert Holds(s', i, key, t);
      }
    }
  }

  lemma {:induction false} RunKeeps(s: State, actions: seq<Action>, key: string)
    requires Runs(s, actions) && Wired(s) && TicketsOnce(s, key)
    ensures Wired(Final(s, actions)) && TicketsOnce(Final(s, actions), key)
    decreases |actions|
  {
    hide Wired, TicketsOnce;
    if actions != [] {
      match actions[0] {
        case Call(caller) => CallKeeps(s, caller, key);
        case Step(i) =>
          match s.callers[i].pc
          case Looking => LookKeeps(s, i, key);
          case Missing => CreateKeeps(s, i, key);
          case Drawing(_) => DrawKeeps(s, i, key);
      }
      RunKeeps(Do(s, actions[0]), actions[1..], key);
    }
  }

  /**
   In every interleaving, the tickets drawn for a key are 0, 1, ..., each held by one
   caller, and every caller that has none yet can go on.
   */
  lemma {:induction false} EveryTicketOnce(actions: seq<Action>, key: string)
    requires Runs(Init, actions)
    ensures var s := Final(Init, actions);
      TicketsOnce(s, key) && forall i: nat :: i < |s.callers| && !s.callers[i].pc.Done? ==> Enabled(s, Step(i))
  {
    RunKeeps(Init, actions, key);
  }

  // ---------------------------------------------------------------------------
  // Fair shares

  /** The callers of `key` with a ticket in `lo .. lo + k` that get endpoint `p` of `n`. */
  ghost function Served(s: State, key: string, lo: nat, k: nat, n: nat, p: nat): set<nat>
    requires n > 0
  {
    set i: nat | i < |s.callers| && IsServed(s.callers[i], key, lo, k, n, p)
  }

  predicate IsServed(c: Caller, key: string, lo: nat, k: nat, n: nat, p: nat)
    requires n > 0
  {
    c.key == key && c.pc.Done? && lo <= c.pc.ticket < lo + k && c.pc.ticket % n == p
  }

  /** How many of the `k` tickets from `lo` on get endpoint `p` of `n`. */
  function Uses(lo: nat, k: nat, n: nat, p: nat): nat
    requires n > 0
    decreases k
  {
    if k == 0 then 0 else (if lo % n == p then 1 else 0) + Uses(lo + 1, k - 1, n, p)
  }

  /** Each of those tickets has one caller, so the callers number the same. */
  lemma {:induction false} ServedUses(s: State, key: string, lo: nat, k: nat, n: nat, p: nat)
    requires TicketsOnce(s, key) && n > 0 && lo + k <= Drawn(s, key)
    ensures |Served(s, key, lo, k, n, p)| == Uses(lo, k, n, p)
    decreases k
  {
    if k == 0 {
      assert Served(s, key, lo, k, n, p) == {};
    } else {
      ServedUses(s, key, lo + 1, k - 1, n, p);
      assert Given(s, key, lo);
      var first: nat :| Holds(s, first, key, lo);
      ServedNext(s, key, lo, k, n, p, first);
    }
  }

  lemma ServedNext(s: State, key: string, lo: nat, k: nat, n: nat, p: nat, first: nat)
    requires TicketsOnce(s, key) && n > 0 && k > 0 && Holds(s, first, key, lo)
    ensures var rest := Served(s, key, lo + 1, k - 1, n, p);
      first !in rest && Served(s, key, lo, k, n, p) == if lo % n == p then rest + {first} else rest
  {
    var rest := Served(s, key, lo + 1, k - 1, n, p);
    forall i: nat ensures i in Served(s, key, lo, k, n, p) <==> i in rest || (i == first && lo % n == p) {
      if i < |s.callers| && IsServed(s.callers[i], key, lo, k, n, p) && s.callers[i].pc.ticket == lo {
        assert Holds(s, i, key, lo);
      }
    }
  }

  lemma ModNext(t: nat, n: nat)
    requires n > 0
    ensures (t + 1) % n == if t % n == n - 1 then 0 else t % n + 1
  {
    var q, r := t / n, t % n;
    assert t == q * n + r;
    if r == n - 1 {
      assert t + 1 == (q + 1) * n + 0;
      DivMod(t + 1, n, q + 1, 0);
    } else {
      DivMod(t + 1, n, q, r + 1);
    }
  }

  lemma DivNext(x: nat, n: nat)
    requires n > 0
    ensures (x + n) / n == x / n + 1
  {
    var q, r := x / n, x % n;
    assert x == q * n + r;
    assert x + n == (q + 1) * n + r;
    DivMod(x + n, n, q + 1, r);
  }

  lemma DivSmall(x: nat, n: nat)
    requires x < n
    ensures x / n == 0
  {
    DivMod(x, n, 0, x);
  }

  /** How far ahead of ticket `lo` the next use of `p` is. */
  function Ahead(lo: nat, n: nat, p: nat): nat
    requires p < n
  {
    if lo % n <= p then p - lo % n else p + n - lo % n
  }

  /** The uses of `p` are `n` apart. */
  lemma {:induction false} UsesAre(lo: nat, k: nat, n: nat, p: nat)
    requires p < n
    ensures Uses(lo, k, n, p) == var d := Ahead(lo, n, p); if k <= d then 0 else 1 + (k - d - 1) / n
    decreases k
  {
    if k > 0 {
      UsesAre(lo + 1, k - 1, n, p);
      ModNext(lo, n);
      if lo % n == p {
        assert Ahead(lo + 1, n, p) == n - 1;
        if k - 1 < n {
          DivSmall(k - 1, n);
        } else {
          DivNext(k - 1 - n, n);
        }
      } else {
        assert Ahead(lo + 1, n, p) == Ahead(lo, n, p) - 1;
      }
    }
  }

  lemma DivMonotone(x: nat, y: nat, n: nat)
    requires n > 0 && x <= y
    ensures x / n <= y / n
  {
    var q, r, q', r' := x / n, x % n, y / n, y % n;
    assert x == q * n + r && y == q' * n + r';
    assert (q - q') * n == q * n - q' * n;
    if q > q' {
      Product(q - q', n);
    }
  }

  /** Any `k` consecutive tickets use each endpoint floor(k / n) or ceil(k / n) times. */
  lemma {:induction false} UsesFair(lo: nat, k: nat, n: nat, p: nat)
    requires p < n
    ensures k / n <= Uses(lo, k, n, p) <= (k + n - 1) / n
  {
    UsesAre(lo, k, n, p);
    var d := Ahead(lo, n, p);
    if k <= d {
      DivSmall(k, n);
      DivMonotone(0, k + n - 1, n);
      DivSmall(0, n);
    } else {
      DivNext(k - d - 1, n);
      DivMonotone(k, k - d - 1 + n, n);
      DivMonotone(k - d - 1 + n, k + n - 1, n);
    }
  }

  /**
   In every interleaving, of the callers that hold any `k` consecutive tickets of a key,
   floor(k / n) or ceil(k / n) get each of `n` endpoints.
   */
  lemma {:induction false} RoundRobinFair(actions: seq<Action>, key: string, lo: nat, k: nat, n: nat, p: nat)
    requires Runs(Init, actions) && p < n && lo + k <= Drawn(Final(Init, actions), key)
    ensures k / n <= |Served(Final(Init, actions), key, lo, k, n, p)| <= (k + n - 1) / n
  {
    EveryTicketOnce(actions, key);
    ServedUses(Final(Init, actions), key, lo, k, n, p);
    UsesFair(lo, k, n, p);
  }
}
