/**
 The gRPC client manager: every interleaving of `Send`, `getClient`, `recvLoop`
 and `reconnect` over the shared `clients` map, before `Close` is called.

 One step is one operation on the concurrent map, one connection close, one
 goroutine start or one answer of the network.  A goroutine is its index in
 `goroutines`, a `*Client` its index in `created`.
 */
module GrpcManager {

  type Address = string

  /** Who called `getClient`, and so where its result goes. */
  datatype Caller = FromSend | FromReconnect

  /** The next step of a goroutine, with the locals it still needs. */
  datatype Pc =
    | GetLoad(addr: Address, caller: Caller)
    | Dial(addr: Address, caller: Caller)
    | SpawnRecv(addr: Address, caller: Caller, client: nat)
    | StoreClient(addr: Address, caller: Caller, client: nat)
    | CloseLoser(addr: Address, caller: Caller, client: nat, winner: nat)
    | StreamSend(addr: Address, client: nat)
    | SendDelete(addr: Address, client: nat)
    | Receiving(addr: Address, client: nat)
    | RecvLoad(addr: Address, client: nat)
    | RecvDelete(addr: Address, client: nat)
    | CloseRemoved(addr: Address, client: nat)
    | SpawnReconnect(addr: Address, client: nat)
    | ReconnectLoad(addr: Address)
    | ReconnectReload(addr: Address)
    | ReconnectWait(addr: Address)
    | Respawn(addr: Address)
    | Returned

  /**
   Who is responsible for a client: the goroutine that created it, the map, the
   goroutine that removed it until it starts `reconnect`, or nobody any more.
   */
  datatype Owner = Creator(g: nat) | Table | Remover(g: nat) | Restarted | Discarded

  /**
   The shared map and the goroutines, with a log of what happened to each client:
   how often it was stored, removed by a winning `CompareAndDelete` and closed,
   how often its removal started a `reconnect`, and whether its stream reported an
   error (`broken`).  `owner` and `agent` are
   history: no step reads them.
   */
  datatype State = State(
    clients: map<Address, nat>,
    created: seq<Address>,
    goroutines: seq<Pc>,
    stores: multiset<nat>,
    removals: multiset<nat>,
    closes: multiset<nat>,
    restarts: multiset<nat>,
    broken: set<nat>,
    owner: seq<Owner>,
    agent: map<Address, nat>
  )

  const Init := State(map[], [], [], multiset{}, multiset{}, multiset{}, multiset{}, {}, [], map[])

  /**
   `CallSend`: some caller enters `Send`.  `Step`: goroutine `g` takes its next
   step; `ok` is the environment's answer where the step asks for one (the dial,
   the stream send, the receive, the reconnect-attempt limit).
   */
  datatype Action = CallSend(to: Address) | Step(g: nat, ok: bool)

  predicate Enabled(s: State, act: Action) {
    act.Step? ==> act.g < |s.goroutines| && !s.goroutines[act.g].Returned?
  }

  function Apply(s: State, act: Action): State
    requires Enabled(s, act)
  {
    match act
    case CallSend(a) => s.(goroutines := s.goroutines + [GetLoad(a, FromSend)])
    case Step(g, ok) => Advance(s, g, ok)
  }

  /** `getClient` returned a client. */
  function Got(addr: Address, caller: Caller, client: nat): Pc {
    if caller.FromSend? then StreamSend(addr, client) else Returned
  }

  /** `getClient` failed after its retries. */
  function Failed(addr: Address, caller: Caller): Pc {
    if caller.FromSend? then Returned else Respawn(addr)
  }

  function Goto(s: State, g: nat, pc: Pc): State
    requires g < |s.goroutines|
  {
    s.(goroutines := s.goroutines[g := pc])
  }

  function Start(s: State, pc: Pc): State {
    s.(goroutines := s.goroutines + [pc])
  }

  /** The stream of client `c` reported an error. */
  function Break(s: State, c: nat): State {
    s.(broken := s.broken + {c})
  }

  /** History: `who` is now responsible for client `c`. */
  function Hand(s: State, c: nat, who: Owner): State {
    if c < |s.owner| then s.(owner := s.owner[c := who]) else s
  }

  /** `CompareAndDelete(addr, client)`, then the winner's or the loser's next step. */
  function CompareAndDelete(s: State, g: nat, addr: Address, client: nat): State
    requires g < |s.goroutines|
  {
    if addr in s.clients && s.clients[addr] == client then
      Hand(Goto(s, g, CloseRemoved(addr, client)), client, Remover(g))
        .(clients := s.clients - {addr}, removals := s.removals + multiset{client}, agent := s.agent[addr := g])
    else
      Goto(s, g, Returned)
  }

  /** `LoadOrStore` stored client `w`. */
  function Stored(s: State, g: nat, a: Address, w: nat, pc: Pc): State
    requires g < |s.goroutines|
  {
    Hand(Goto(s, g, pc), w, Table).(clients := s.clients[a := w], stores := s.stores + multiset{w})
  }

  /** The goroutine ends by starting `reconnect(addr)`. */
  function StartReconnect(s: State, g: nat, addr: Address): State
    requires g < |s.goroutines|
  {
    Start(Goto(s, g, Returned), ReconnectLoad(addr)).(agent := s.agent[addr := |s.goroutines|])
  }

  function Advance(s: State, g: nat, ok: bool): State
    requires g < |s.goroutines|
  {
    match s.goroutines[g]
    case GetLoad(a, k) =>
      Goto(s, g, if a in s.clients then Got(a, k, s.clients[a]) else Dial(a, k))
    case Dial(a, k) =>
      if ok then
        Goto(s, g, SpawnRecv(a, k, |s.created|)).(created := s.created + [a], owner := s.owner + [Creator(g)])
      else Goto(s, g, Failed(a, k))
    case SpawnRecv(a, k, c) =>
      Start(Goto(s, g, StoreClient(a, k, c)), Receiving(a, c))
    case StoreClient(a, k, c) =>
      if a in s.clients then Goto(s, g, CloseLoser(a, k, c, s.clients[a]))
      else Stored(s, g, a, c, Got(a, k, c))
    case CloseLoser(a, k, c, w) =>
      Hand(Goto(s, g, Got(a, k, w)), c, Discarded).(closes := s.closes + multiset{c})
    case StreamSend(a, c) =>
      if ok then Goto(s, g, Returned) else Goto(Break(s, c), g, SendDelete(a, c))
    case SendDelete(a, c) => CompareAndDelete(s, g, a, c)
    case Receiving(a, c) =>
      if ok then s else Goto(Break(s, c), g, RecvLoad(a, c))
    case RecvLoad(a, c) =>
      Goto(s, g, if a in s.clients && s.clients[a] == c then RecvDelete(a, c) else Returned)
    case RecvDelete(a, c) => CompareAndDelete(s, g, a, c)
    case CloseRemoved(a, c) =>
      Goto(s, g, SpawnReconnect(a, c)).(closes := s.closes + multiset{c})
    case SpawnReconnect(a, c) =>
      Hand(StartReconnect(s, g, a), c, Restarted).(restarts := s.restarts + multiset{c})
    case ReconnectLoad(a) =>
      Goto(s, g, if a in s.clients then Returned else ReconnectReload(a))
    case ReconnectReload(a) =>
      Goto(s, g, if a in s.clients && !ok then Returned else ReconnectWait(a))
    case ReconnectWait(a) => Goto(s, g, GetLoad(a, FromReconnect))
    case Respawn(a) => StartReconnect(s, g, a)
    case Returned => s
  }

  predicate Runs(s: State, acts: seq<Action>)
    decreases |acts|
  {
    acts == [] || (Enabled(s, acts[0]) && Runs(Apply(s, acts[0]), acts[1..]))
  }

  /** The state after a whole run. */
  function Final(s: State, acts: seq<Action>): State
    requires Runs(s, acts)
    decreases |acts|
  {
    if acts == [] then s else Final(Apply(s, acts[0]), acts[1..])
  }

  // ---------------------------------------------------------------------------
  // What a goroutine is responsible for

  predicate Mapped(s: State, c: nat) {
    c < |s.created| && s.created[c] in s.clients && s.clients[s.created[c]] == c
  }

  /** The goroutine created this client, which was never stored, and still has to store or close it. */
  predicate HoldsFresh(pc: Pc) {
    pc.SpawnRecv? || pc.StoreClient? || pc.CloseLoser?
  }

  /** The goroutine won the removal of its client and has not yet started `reconnect`. */
  predicate OwesRestart(pc: Pc) {
    pc.CloseRemoved? || pc.SpawnReconnect?
  }

  /** The goroutine still has to store or close client `c`. */
  predicate Holds(pc: Pc, c: nat) {
    (HoldsFresh(pc) || pc.CloseRemoved?) && pc.client == c
  }

  /** The goroutine is a `reconnect` of `a` that has not yet seen or made a mapped client. */
  predicate Reconnecting(pc: Pc, a: Address) {
    || ((pc.ReconnectLoad? || pc.ReconnectReload? || pc.ReconnectWait? || pc.Respawn?) && pc.addr == a)
    || ((pc.GetLoad? || pc.Dial? || pc.SpawnRecv? || pc.StoreClient?) && pc.caller.FromReconnect? && pc.addr == a)
  }

  /** The goroutine removed `a` and has not yet started `reconnect`, or is a pending `reconnect` of `a`. */
  predicate Pending(pc: Pc, a: Address) {
    (OwesRestart(pc) && pc.addr == a) || Reconnecting(pc, a)
  }

  // ---------------------------------------------------------------------------
  // The invariant

  /** The log and the owner of a client tell the same story. */
  predicate ClientOk(s: State, c: nat)
    requires c < |s.created| == |s.owner|
  {
    match s.owner[c]
    case Creator(g) =>
      && s.stores[c] == s.removals[c] == s.closes[c] == s.restarts[c] == 0
      && g < |s.goroutines| && HoldsFresh(s.goroutines[g]) && s.goroutines[g].client == c
    case Table =>
      && s.stores[c] == 1 && s.removals[c] == s.closes[c] == s.restarts[c] == 0 && Mapped(s, c)
    case Remover(g) =>
      && s.stores[c] == s.removals[c] == 1 && s.restarts[c] == 0 && c in s.broken
      && g < |s.goroutines| && OwesRestart(s.goroutines[g]) && s.goroutines[g].client == c
      && s.closes[c] == (if s.goroutines[g].CloseRemoved? then 0 else 1)
    case Restarted => s.stores[c] == s.removals[c] == s.closes[c] == s.restarts[c] == 1 && c in s.broken
    case Discarded => s.stores[c] == s.removals[c] == s.restarts[c] == 0 && s.closes[c] == 1
  }

  predicate Known(s: State, a: Address, c: nat) {
    c < |s.created| == |s.owner| && s.created[c] == a
  }

  /** The goroutine still refers to its `client`. */
  predicate Uses(pc: Pc) {
    || HoldsFresh(pc) || OwesRestart(pc)
    || pc.StreamSend? || pc.SendDelete? || pc.Receiving? || pc.RecvLoad? || pc.RecvDelete?
  }

  /** Goroutine `g` at `pc` uses each client under its own address, and owns what it holds. */
  predicate GoroutineOk(s: State, g: nat, pc: Pc) {
    && (Uses(pc) ==> Known(s, pc.addr, pc.client))
    && (HoldsFresh(pc) ==> s.owner[pc.client] == Creator(g))
    && (OwesRestart(pc) ==> s.owner[pc.client] == Remover(g))
    && (pc.CloseLoser? ==> Known(s, pc.addr, pc.winner))
    && (pc.SendDelete? || pc.RecvLoad? || pc.RecvDelete? ==> pc.client in s.broken)
  }

  /** Address `a` is mapped, or its agent is at work on it. */
  predicate Served(s: State, a: Address) {
    a in s.clients || (a in s.agent && s.agent[a] < |s.goroutines| && Pending(s.goroutines[s.agent[a]], a))
  }

  ghost predicate ClientsOk(s: State) {
    && |s.owner| == |s.created|
    && (forall c :: 0 <= c < |s.created| ==> ClientOk(s, c))
    && (forall c: nat :: c >= |s.created| ==> s.stores[c] == s.removals[c] == s.closes[c] == s.restarts[c] == 0)
  }

  ghost predicate MapOk(s: State) {
    forall a :: a in s.clients ==> Known(s, a, s.clients[a]) && s.owner[s.clients[a]].Table?
  }

  ghost predicate GoroutinesOk(s: State) {
    forall g :: 0 <= g < |s.goroutines| ==> GoroutineOk(s, g, s.goroutines[g])
  }

  ghost predicate AllServed(s: State) {
    forall c :: 0 <= c < |s.created| && s.stores[c] > 0 ==> Served(s, s.created[c])
  }

  ghost predicate Inv(s: State) {
    ClientsOk(s) && MapOk(s) && GoroutinesOk(s) && AllServed(s)
  }

  // ---------------------------------------------------------------------------
  // Every step keeps the invariant

  /** The goroutine keeps what it holds. */
  predicate Keeps(old_: Pc, new_: Pc) {
    && HoldsFresh(old_) == HoldsFresh(new_)
    && OwesRestart(old_) == OwesRestart(new_)
    && old_.CloseRemoved? == new_.CloseRemoved?
    && (HoldsFresh(old_) || OwesRestart(old_) ==> old_.client == new_.client)
  }

  /** A goroutine moves on without touching the map or the log. */
  lemma GotoKeeps(s: State, g: nat, pc: Pc)
    requires Inv(s) && g < |s.goroutines|
    requires GoroutineOk(s, g, pc) && Keeps(s.goroutines[g], pc)
    requires forall a :: a in s.agent && s.agent[a] == g && Pending(s.goroutines[g], a) ==>
                           Pending(pc, a) || a in s.clients
    ensures Inv(Goto(s, g, pc))
  {
    var t := Goto(s, g, pc);
    forall c | 0 <= c < |t.created| ensures ClientOk(t, c) { assert ClientOk(s, c); }
  }

  /** A goroutine starts, holding nothing. */
  lemma StartKeeps(s: State, pc: Pc)
    requires Inv(s)
    requires GoroutineOk(s, |s.goroutines|, pc) && !HoldsFresh(pc) && !OwesRestart(pc)
    ensures Inv(Start(s, pc))
  {
    var t := Start(s, pc);
    forall c | 0 <= c < |t.created| ensures ClientOk(t, c) { assert ClientOk(s, c); }
  }

  /** `getClient` dialled a new client. */
  lemma CreateKeeps(s: State, g: nat)
    requires Inv(s) && g < |s.goroutines| && s.goroutines[g].Dial?
    ensures Inv(Advance(s, g, true))
  {
    var t := Advance(s, g, true);
    forall c | 0 <= c < |t.created| ensures ClientOk(t, c) {
      if c < |s.created| { assert ClientOk(s, c); }
    }
    forall h | 0 <= h < |t.goroutines| ensures GoroutineOk(t, h, t.goroutines[h]) {
      assert GoroutineOk(s, h, s.goroutines[h]);
    }
    forall c | 0 <= c < |t.created| && t.stores[c] > 0 ensures Served(t, t.created[c]) {
      assert Served(s, s.created[c]);
    }
  }

  lemma StoreKeepsClient(s: State, g: nat, a: Address, w: nat, pc: Pc, c: nat)
    requires Inv(s) && g < |s.goroutines| && HoldsFresh(s.goroutines[g])
    requires s.goroutines[g].client == w && s.goroutines[g].addr == a && a !in s.clients
    requires c < |s.created|
    ensures ClientOk(Stored(s, g, a, w, pc), c)
  {
    assert GoroutineOk(s, g, s.goroutines[g]) && ClientOk(s, c);
  }

  lemma StoreKeeps(s: State, g: nat, a: Address, w: nat, pc: Pc)
    requires Inv(s) && g < |s.goroutines| && HoldsFresh(s.goroutines[g])
    requires s.goroutines[g].client == w && s.goroutines[g].addr == a && a !in s.clients
    requires pc.Returned? || pc == StreamSend(a, w)
    ensures Inv(Stored(s, g, a, w, pc))
  {
    var t := Stored(s, g, a, w, pc);
    assert GoroutineOk(s, g, s.goroutines[g]);
    forall c | 0 <= c < |t.created| ensures ClientOk(t, c) { StoreKeepsClient(s, g, a, w, pc, c); }
    forall h | 0 <= h < |t.goroutines| ensures GoroutineOk(t, h, t.goroutines[h]) {
      assert GoroutineOk(s, h, s.goroutines[h]);
    }
    forall c | 0 <= c < |t.created| && t.stores[c] > 0 ensures Served(t, t.created[c]) {
      assert s.stores[c] > 0 ==> Served(s, s.created[c]);
    }
  }

  /** The client that lost `LoadOrStore` is closed. */
  lemma CloseLoserKeeps(s: State, g: nat, w: nat, pc: Pc)
    requires Inv(s) && g < |s.goroutines| && s.goroutines[g].CloseLoser? && s.goroutines[g].client == w
    requires pc.Returned? || pc == StreamSend(s.goroutines[g].addr, s.goroutines[g].winner)
    ensures Inv(Hand(Goto(s, g, pc), w, Discarded).(closes := s.closes + multiset{w}))
  {
    var t := Hand(Goto(s, g, pc), w, Discarded).(closes := s.closes + multiset{w});
    assert GoroutineOk(s, g, s.goroutines[g]);
    forall c | 0 <= c < |t.created| ensures ClientOk(t, c) { assert ClientOk(s, c); }
    forall h | 0 <= h < |t.goroutines| ensures GoroutineOk(t, h, t.goroutines[h]) {
      assert GoroutineOk(s, h, s.goroutines[h]);
    }
    forall c | 0 <= c < |t.created| && t.stores[c] > 0 ensures Served(t, t.created[c]) {
      assert Served(s, s.created[c]);
    }
  }

  /** `CompareAndDelete` won. */
  lemma RemoveKeeps(s: State, g: nat, a: Address, w: nat)
    requires Inv(s) && g < |s.goroutines|
    requires s.goroutines[g] == SendDelete(a, w) || s.goroutines[g] == RecvDelete(a, w)
    requires a in s.clients && s.clients[a] == w
    ensures Inv(CompareAndDelete(s, g, a, w))
  {
    var t := CompareAndDelete(s, g, a, w);
    forall c | 0 <= c < |t.created| ensures ClientOk(t, c) { assert ClientOk(s, c); }
    forall h | 0 <= h < |t.goroutines| ensures GoroutineOk(t, h, t.goroutines[h]) {
      assert GoroutineOk(s, h, s.goroutines[h]);
    }
    forall c | 0 <= c < |t.created| && t.stores[c] > 0 ensures Served(t, t.created[c]) {
      assert Served(s, s.created[c]);
    }
  }

  /** The winner closes what it removed. */
  lemma CloseRemovedKeeps(s: State, g: nat, ok: bool)
    requires Inv(s) && g < |s.goroutines| && s.goroutines[g].CloseRemoved?
    ensures Inv(Advance(s, g, ok))
  {
    var t := Advance(s, g, ok);
    assert GoroutineOk(s, g, s.goroutines[g]);
    forall c | 0 <= c < |t.created| ensures ClientOk(t, c) { assert ClientOk(s, c); }
    forall h | 0 <= h < |t.goroutines| ensures GoroutineOk(t, h, t.goroutines[h]) {
      assert GoroutineOk(s, h, s.goroutines[h]);
    }
    forall c | 0 <= c < |t.created| && t.stores[c] > 0 ensures Served(t, t.created[c]) {
      assert Served(s, s.created[c]);
    }
  }

  /** A new `reconnect(a)` becomes the agent of `a`. */
  lemma AgentKeeps(s: State, a: Address)
    requires Inv(s)
    ensures Inv(Start(s, ReconnectLoad(a)).(agent := s.agent[a := |s.goroutines|]))
  {
    StartKeeps(s, ReconnectLoad(a));
    var u := Start(s, ReconnectLoad(a));
    var t := u.(agent := s.agent[a := |s.goroutines|]);
    forall c | 0 <= c < |t.created| ensures ClientOk(t, c) { assert ClientOk(u, c); }
    forall h | 0 <= h < |t.goroutines| ensures GoroutineOk(t, h, t.goroutines[h]) {
      assert GoroutineOk(u, h, u.goroutines[h]);
    }
  }

  /** The goroutine that removed `w` has started its `reconnect` and ends. */
  lemma SettleKeeps(s: State, g: nat, w: nat)
    requires Inv(s) && g < |s.goroutines| && s.goroutines[g].SpawnReconnect? && s.goroutines[g].client == w
    requires forall a :: a in s.agent && s.agent[a] == g ==> !Pending(s.goroutines[g], a)
    ensures Inv(Hand(Goto(s, g, Returned), w, Restarted).(restarts := s.restarts + multiset{w}))
  {
    var t := Hand(Goto(s, g, Returned), w, Restarted).(restarts := s.restarts + multiset{w});
    assert GoroutineOk(s, g, s.goroutines[g]);
    forall c | 0 <= c < |t.created| ensures ClientOk(t, c) { assert ClientOk(s, c); }
    forall h | 0 <= h < |t.goroutines| ensures GoroutineOk(t, h, t.goroutines[h]) {
      assert GoroutineOk(s, h, s.goroutines[h]);
    }
    forall c | 0 <= c < |t.created| && t.stores[c] > 0 ensures Served(t, t.created[c]) {
      assert Served(s, s.created[c]);
    }
  }

  /** The remover of a client ends by starting `reconnect`. */
  lemma RestartKeeps(s: State, g: nat, ok: bool, a: Address, c: nat)
    requires Inv(s) && g < |s.goroutines| && s.goroutines[g] == SpawnReconnect(a, c)
    ensures Inv(Advance(s, g, ok))
  {
    var u := Start(s, ReconnectLoad(a)).(agent := s.agent[a := |s.goroutines|]);
    AgentKeeps(s, a);
    SettleKeeps(u, g, c);
    assert Goto(u, g, Returned).goroutines == StartReconnect(s, g, a).goroutines;
  }

  /** A failed `reconnect` ends by starting another. */
  lemma RespawnKeeps(s: State, g: nat, ok: bool, a: Address)
    requires Inv(s) && g < |s.goroutines| && s.goroutines[g] == Respawn(a)
    ensures Inv(Advance(s, g, ok))
  {
    var u := Start(s, ReconnectLoad(a)).(agent := s.agent[a := |s.goroutines|]);
    AgentKeeps(s, a);
    GotoKeeps(u, g, Returned);
    assert Goto(u, g, Returned).goroutines == StartReconnect(s, g, a).goroutines;
  }

  /** The steps of `getClient`. */
  lemma GetClientKeeps(s: State, g: nat, ok: bool)
    requires Inv(s) && g < |s.goroutines|
    requires s.goroutines[g].GetLoad? || s.goroutines[g].Dial? || HoldsFresh(s.goroutines[g])
    ensures Inv(Advance(s, g, ok))
  {
    hide ClientsOk, AllServed;
    assert GoroutineOk(s, g, s.goroutines[g]);
    match s.goroutines[g]
    case GetLoad(a, k) => GotoKeeps(s, g, if a in s.clients then Got(a, k, s.clients[a]) else Dial(a, k));
    case Dial(a, k) => if ok { CreateKeeps(s, g); } else { GotoKeeps(s, g, Failed(a, k)); }
    case SpawnRecv(a, k, c) =>
      GotoKeeps(s, g, StoreClient(a, k, c));
      StartKeeps(Goto(s, g, StoreClient(a, k, c)), Receiving(a, c));
    case StoreClient(a, k, c) =>
      if a in s.clients { GotoKeeps(s, g, CloseLoser(a, k, c, s.clients[a])); }
      else { StoreKeeps(s, g, a, c, Got(a, k, c)); }
    case CloseLoser(a, k, c, w) => CloseLoserKeeps(s, g, c, Got(a, k, w));
  }

  /** A goroutine sees the stream of its client fail and goes on to the cleanup. */
  lemma BreakKeeps(s: State, g: nat, a: Address, w: nat, pc: Pc)
    requires Inv(s) && g < |s.goroutines| && !HoldsFresh(s.goroutines[g]) && !OwesRestart(s.goroutines[g])
    requires Known(s, a, w) && (pc == SendDelete(a, w) || pc == RecvLoad(a, w))
    requires forall x :: !Pending(s.goroutines[g], x)
    ensures Inv(Goto(Break(s, w), g, pc))
  {
    var t := Goto(Break(s, w), g, pc);
    forall c | 0 <= c < |t.created| ensures ClientOk(t, c) { assert ClientOk(s, c); }
    forall h | 0 <= h < |t.goroutines| ensures GoroutineOk(t, h, t.goroutines[h]) {
      assert GoroutineOk(s, h, s.goroutines[h]);
    }
  }

  /** A stream operation of `Send` or `recvLoop`. */
  lemma StreamKeeps(s: State, g: nat, ok: bool, a: Address, c: nat)
    requires Inv(s) && g < |s.goroutines|
    requires s.goroutines[g] == StreamSend(a, c) || s.goroutines[g] == Receiving(a, c)
    ensures Inv(Advance(s, g, ok))
  {
    assert GoroutineOk(s, g, s.goroutines[g]);
    if !ok {
      BreakKeeps(s, g, a, c, if s.goroutines[g].StreamSend? then SendDelete(a, c) else RecvLoad(a, c));
    } else if s.goroutines[g].StreamSend? {
      GotoKeeps(s, g, Returned);
    }
  }

  /** The cleanup of `Send` and `recvLoop` after a stream error. */
  lemma DeleteKeeps(s: State, g: nat, ok: bool)
    requires Inv(s) && g < |s.goroutines|
    requires s.goroutines[g].SendDelete? || s.goroutines[g].RecvLoad? || s.goroutines[g].RecvDelete?
    ensures Inv(Advance(s, g, ok))
  {
    assert GoroutineOk(s, g, s.goroutines[g]);
    var a, c := s.goroutines[g].addr, s.goroutines[g].client;
    if s.goroutines[g].RecvLoad? || a !in s.clients || s.clients[a] != c {
      GotoKeeps(s, g, Advance(s, g, ok).goroutines[g]);
    } else {
      RemoveKeeps(s, g, a, c);
    }
  }

  /** The steps of `reconnect`. */
  lemma ReconnectKeeps(s: State, g: nat, ok: bool)
    requires Inv(s) && g < |s.goroutines|
    requires s.goroutines[g].ReconnectLoad? || s.goroutines[g].ReconnectReload? || s.goroutines[g].ReconnectWait?
    ensures Inv(Advance(s, g, ok))
  {
    GotoKeeps(s, g, Advance(s, g, ok).goroutines[g]);
  }

  /** Every step of every goroutine keeps the invariant. */
  lemma StepKeepsInv(s: State, act: Action)
    requires Enabled(s, act) && Inv(s)
    ensures Inv(Apply(s, act))
  {
    match act
    case CallSend(a) => StartKeeps(s, GetLoad(a, FromSend));
    case Step(g, ok) =>
      var pc := s.goroutines[g];
      if pc.GetLoad? || pc.Dial? || HoldsFresh(pc) {
        GetClientKeeps(s, g, ok);
      } else if pc.CloseRemoved? {
        CloseRemovedKeeps(s, g, ok);
      } else if pc.SpawnReconnect? {
        RestartKeeps(s, g, ok, pc.addr, pc.client);
      } else if pc.Respawn? {
        RespawnKeeps(s, g, ok, pc.addr);
      } else if pc.ReconnectLoad? || pc.ReconnectReload? || pc.ReconnectWait? {
        ReconnectKeeps(s, g, ok);
      } else if pc.StreamSend? || pc.Receiving? {
        StreamKeeps(s, g, ok, pc.addr, pc.client);
      } else {
        DeleteKeeps(s, g, ok);
      }
  }

  /** The invariant holds after every run. */
  lemma RunKeepsInv(s: State, acts: seq<Action>)
    requires Inv(s) && Runs(s, acts)
    ensures Inv(Final(s, acts))
    decreases |acts|
  {
    if acts != [] {
      StepKeepsInv(s, acts[0]);
      RunKeepsInv(Apply(s, acts[0]), acts[1..]);
    }
  }

  // ---------------------------------------------------------------------------
  // What holds after every run from the empty manager

  /** The address was stored in the map at some point of the run. */
  ghost predicate EverStored(s: State, a: Address) {
    exists c :: 0 <= c < |s.created| && s.created[c] == a && s.stores[c] > 0
  }

  /**
   No reconnection obligation is lost: an address that was ever stored is mapped
   now, or some goroutine removed it and has not yet started `reconnect`, or a
   `reconnect` of it is pending.
   */
  lemma NoReconnectLost(acts: seq<Action>, a: Address)
    requires Runs(Init, acts) && EverStored(Final(Init, acts), a)
    ensures var s := Final(Init, acts);
      || a in s.clients
      || (exists g :: 0 <= g < |s.goroutines| && OwesRestart(s.goroutines[g]) && s.goroutines[g].addr == a)
      || (exists g :: 0 <= g < |s.goroutines| && Reconnecting(s.goroutines[g], a))
  {
    RunKeepsInv(Init, acts);
    var s := Final(Init, acts);
    var c :| 0 <= c < |s.created| && s.created[c] == a && s.stores[c] > 0;
    assert Served(s, s.created[c]);
  }

  /**
   A client is stored at most once, removed at most once, closed at most once, and
   its removal starts at most one `reconnect`; while it is mapped it is not closed,
   and it is removed only after its own stream reported an error.
   */
  lemma ClientLifecycle(acts: seq<Action>, c: nat)
    requires Runs(Init, acts)
    ensures var s := Final(Init, acts);
      && s.restarts[c] <= s.removals[c] <= s.stores[c] <= 1
      && s.closes[c] <= 1
      && (Mapped(s, c) <==> s.stores[c] == 1 && s.removals[c] == 0)
      && (Mapped(s, c) ==> s.closes[c] == 0)
      && (s.removals[c] > 0 ==> c in s.broken)
  {
    RunKeepsInv(Init, acts);
    var s := Final(Init, acts);
    if c < |s.created| {
      assert ClientOk(s, c);
    }
  }

  /** A client is never in two hands: the goroutine that must still store or close it is unique. */
  lemma OneHolder(acts: seq<Action>, g: nat, h: nat, c: nat)
    requires Runs(Init, acts)
    requires var s := Final(Init, acts);
      g < |s.goroutines| && h < |s.goroutines| && Holds(s.goroutines[g], c) && Holds(s.goroutines[h], c)
    ensures g == h && !Mapped(Final(Init, acts), c) && Final(Init, acts).closes[c] == 0
  {
    RunKeepsInv(Init, acts);
    var s := Final(Init, acts);
    assert GoroutineOk(s, g, s.goroutines[g]) && GoroutineOk(s, h, s.goroutines[h]) && ClientOk(s, c);
  }

  /** No client is leaked: it is mapped, closed, or held by the goroutine that will store or close it. */
  lemma NoClientLeaked(acts: seq<Action>, c: nat)
    requires Runs(Init, acts) && c < |Final(Init, acts).created|
    ensures var s := Final(Init, acts);
      || (Mapped(s, c) && s.closes[c] == 0)
      || (!Mapped(s, c) && s.closes[c] == 1)
      || (!Mapped(s, c) && s.closes[c] == 0 && exists g :: 0 <= g < |s.goroutines| && Holds(s.goroutines[g], c))
  {
    RunKeepsInv(Init, acts);
    var s := Final(Init, acts);
    assert ClientOk(s, c);
    match s.owner[c]
    case Creator(g) => assert Holds(s.goroutines[g], c);
    case Remover(g) => assert s.goroutines[g].CloseRemoved? ==> Holds(s.goroutines[g], c);
    case _ =>
  }

  /** Every goroutine has returned, except receive loops waiting for the stream. */
  ghost predicate Quiet(s: State) {
    forall g :: 0 <= g < |s.goroutines| ==> s.goroutines[g].Returned? || s.goroutines[g].Receiving?
  }

  /**
   With no step in flight every created client is mapped or closed but not both,
   every removal has started its one `reconnect`, and every address that was ever
   stored is mapped.
   */
  lemma QuietManager(acts: seq<Action>)
    requires Runs(Init, acts) && Quiet(Final(Init, acts))
    ensures var s := Final(Init, acts);
      && (forall c :: 0 <= c < |s.created| ==> (Mapped(s, c) <==> s.closes[c] == 0))
      && (forall c :: 0 <= c < |s.created| ==> s.restarts[c] == s.removals[c])
      && (forall a :: EverStored(s, a) ==> a in s.clients)
  {
    var s := Final(Init, acts);
    forall c | 0 <= c < |s.created|
      ensures (Mapped(s, c) <==> s.closes[c] == 0) && s.restarts[c] == s.removals[c]
    {
      NoClientLeaked(acts, c);
      RunKeepsInv(Init, acts);
      assert ClientOk(s, c);
    }
    forall a | EverStored(s, a) ensures a in s.clients { NoReconnectLost(acts, a); }
  }
}
