/**
 What becomes of a client whose stream has failed, in every interleaving of the gRPC
 client manager; and what `Send` and `reconnect` do when nothing interferes.
 */
module GrpcCleanup {
  import opened GrpcManager

  /**
   Two things to remember of a run: the clients on which a `Send` has failed, and those
   whose receive loop, when its stream had failed, did not find them in the map.
   */
  datatype Log = Log(failed: set<nat>, missed: set<nat>)

  function Noted(s: State, act: Action, l: Log): Log {
    if act.CallSend? || act.g >= |s.goroutines| then l
    else
      var pc := s.goroutines[act.g];
      if pc.StreamSend? && !act.ok then l.(failed := l.failed + {pc.client})
      else if pc.RecvLoad? && !(pc.addr in s.clients && s.clients[pc.addr] == pc.client)
      then l.(missed := l.missed + {pc.client})
      else l
  }

  function FinalLog(s: State, acts: seq<Action>, l: Log): Log
    requires Runs(s, acts)
    decreases |acts|
  {
    if acts == [] then l else FinalLog(Apply(s, acts[0]), acts[1..], Noted(s, acts[0], l))
  }

  const NoLog := Log({}, {})

  // ---------------------------------------------------------------------------
  // The invariant

  /** The client was stored at some point. */
  predicate WasStored(s: State, c: nat) {
    c < |s.owner| && (s.owner[c].Table? || s.owner[c].Remover? || s.owner[c].Restarted?)
  }

  /** The client is mapped, or may yet be. */
  predicate InUse(s: State, c: nat) {
    c < |s.owner| && (s.owner[c].Table? || s.owner[c].Creator?)
  }

  /** The goroutine is about to remove client `c` if it is still mapped. */
  predicate Removing(pc: Pc, c: nat) {
    (pc.SendDelete? || pc.RecvLoad? || pc.RecvDelete?) && pc.client == c
  }

  ghost predicate Doomed(s: State, c: nat) {
    exists g :: 0 <= g < |s.goroutines| && Removing(s.goroutines[g], c)
  }

  ghost predicate SendDoomed(s: State, c: nat) {
    exists g :: 0 <= g < |s.goroutines| && s.goroutines[g].SendDelete? && s.goroutines[g].client == c
  }

  /** What the goroutine sends on, or has failed to send on, or found in the map, was stored. */
  predicate UsesStored(s: State, pc: Pc) {
    && (pc.StreamSend? || pc.SendDelete? || pc.RecvDelete? ==> WasStored(s, pc.client))
    && (pc.CloseLoser? ==> WasStored(s, pc.winner))
  }

  predicate LogOk(s: State, l: Log) {
    && (forall c :: c in l.failed ==> WasStored(s, c))
    && (forall c :: c in l.missed ==> c in s.broken)
  }

  ghost predicate CleanupInv(s: State, l: Log) {
    && (forall g :: 0 <= g < |s.goroutines| ==> UsesStored(s, s.goroutines[g]))
    && (forall c :: c in s.broken && InUse(s, c) && c !in l.missed ==> Doomed(s, c))
    && (forall c :: c in l.failed && InUse(s, c) ==> SendDoomed(s, c))
    && (forall c :: c in s.broken ==> c < |s.owner|)
    && LogOk(s, l)
  }

  /** A step in which goroutine `g` moves, others may start, and owners move on. */
  ghost predicate Moves(s: State, t: State, g: nat) {
    && g < |t.goroutines| && |s.goroutines| <= |t.goroutines| && |s.owner| <= |t.owner|
    && (forall h :: 0 <= h < |s.goroutines| && h != g ==> t.goroutines[h] == s.goroutines[h])
    && (forall h :: |s.goroutines| <= h < |t.goroutines| && h != g ==>
          !Uses(t.goroutines[h]) || t.goroutines[h].Receiving?)
    && (forall c: nat :: WasStored(s, c) ==> WasStored(t, c))
    && (forall c: nat :: InUse(t, c) ==> InUse(s, c) || c >= |s.owner|)
    && s.broken <= t.broken
  }

  lemma {:induction false} MoveKeeps(s: State, t: State, g: nat, l: Log, l': Log)
    requires CleanupInv(s, l) && Moves(s, t, g)
    requires UsesStored(t, t.goroutines[g])
    requires forall c :: c in t.broken && c !in s.broken ==> Removing(t.goroutines[g], c)
    requires forall c :: c in t.broken ==> c < |s.owner|
    requires l.failed <= l'.failed && l.missed <= l'.missed && LogOk(t, l')
    requires forall c :: c in l'.failed && c !in l.failed ==> t.goroutines[g].SendDelete? && t.goroutines[g].client == c
    requires forall c :: g < |s.goroutines| && Removing(s.goroutines[g], c) && InUse(t, c) ==>
      (Removing(t.goroutines[g], c) || c in l'.missed) && !s.goroutines[g].SendDelete?
    ensures CleanupInv(t, l')
  {
    hide LogOk, InUse, WasStored;
    forall h | 0 <= h < |t.goroutines| ensures UsesStored(t, t.goroutines[h]) {
      if h < |s.goroutines| && h != g {
        assert UsesStored(s, s.goroutines[h]);
      }
    }
    forall c | c in t.broken && InUse(t, c) && c !in l'.missed ensures Doomed(t, c) {
      if c in s.broken {
        assert Doomed(s, c);
        var h :| 0 <= h < |s.goroutines| && Removing(s.goroutines[h], c);
        assert Removing(t.goroutines[h], c);
      } else {
        assert Removing(t.goroutines[g], c);
      }
    }
    forall c | c in l'.failed && InUse(t, c) ensures SendDoomed(t, c) {
      if c in l.failed {
        assert WasStored(s, c) by { FailedStored(s, l, c); }
        StoredKnown(s, c);
        assert SendDoomed(s, c);
        var h :| 0 <= h < |s.goroutines| && s.goroutines[h].SendDelete? && s.goroutines[h].client == c;
        assert Removing(s.goroutines[h], c);
        assert t.goroutines[h].SendDelete? && t.goroutines[h].client == c;
      } else {
        assert t.goroutines[g].SendDelete? && t.goroutines[g].client == c;
      }
    }
  }

  lemma FailedStored(s: State, l: Log, c: nat)
    requires LogOk(s, l) && c in l.failed
    ensures WasStored(s, c)
  {
  }

  lemma StoredKnown(s: State, c: nat)
    requires WasStored(s, c)
    ensures c < |s.owner|
  {
  }

  /** A step in which goroutine `g` moves and client `c` passes from one owner to the next. */
  ghost predicate Passes(s: State, t: State, g: nat, c: nat) {
    && g < |s.goroutines| == |t.goroutines| && c < |s.owner| == |t.owner|
    && (forall h :: 0 <= h < |s.goroutines| && h != g ==> t.goroutines[h] == s.goroutines[h])
    && (forall d :: 0 <= d < |s.owner| && d != c ==> t.owner[d] == s.owner[d])
    && (WasStored(s, c) ==> WasStored(t, c)) && (InUse(t, c) ==> InUse(s, c)) && t.broken == s.broken
  }

  lemma PassKeeps(s: State, t: State, g: nat, c: nat, l: Log)
    requires CleanupInv(s, l) && Passes(s, t, g, c) && UsesStored(t, t.goroutines[g])
    requires forall d :: Removing(s.goroutines[g], d) ==> !InUse(t, d)
    ensures CleanupInv(t, l)
  {
    PassMoves(s, t, g, c);
    PassLog(s, t, g, c, l);
    hide LogOk, InUse, WasStored, UsesStored, Passes;
    MoveKeeps(s, t, g, l, l);
  }

  lemma PassMoves(s: State, t: State, g: nat, c: nat)
    requires Passes(s, t, g, c)
    ensures Moves(s, t, g) && t.broken == s.broken && |s.owner| == |t.owner|
  {
  }

  lemma PassLog(s: State, t: State, g: nat, c: nat, l: Log)
    requires Passes(s, t, g, c) && LogOk(s, l)
    ensures LogOk(t, l)
  {
    forall d | d in l.failed ensures WasStored(t, d) {
      assert WasStored(s, d);
    }
  }

  // ---------------------------------------------------------------------------
  // Every step keeps it

  /** A goroutine moves on without touching the map or the log. */
  lemma GotoKeepsCleanup(s: State, g: nat, pc: Pc, l: Log)
    requires CleanupInv(s, l) && g < |s.goroutines| && UsesStored(s, pc)
    requires forall c :: Removing(s.goroutines[g], c) && InUse(s, c) ==>
      Removing(pc, c) && !s.goroutines[g].SendDelete?
    ensures CleanupInv(Goto(s, g, pc), l)
  {
    MoveKeeps(s, Goto(s, g, pc), g, l, l);
  }

  /** What the map holds was stored, and what is stored and not removed is in the map. */
  lemma TableIsMap(s: State, a: Address, c: nat)
    requires Inv(s)
    ensures a in s.clients ==> WasStored(s, s.clients[a])
    ensures Known(s, a, c) && s.owner[c].Table? ==> a in s.clients && s.clients[a] == c
  {
    if Known(s, a, c) && s.owner[c].Table? {
      assert ClientOk(s, c);
    }
  }

  /** A new client, which nobody else knows. */
  lemma CreateKeepsCleanup(s: State, g: nat, l: Log)
    requires Inv(s) && CleanupInv(s, l) && g < |s.goroutines| && s.goroutines[g].Dial?
    ensures CleanupInv(Advance(s, g, true), l)
  {
    assert |s.owner| == |s.created|;
    hide Inv, ClientOk;
    MoveKeeps(s, Advance(s, g, true), g, l, l);
  }

  /** The creator's client goes into the map, or is closed. */
  lemma SettledKeepsCleanup(s: State, g: nat, ok: bool, l: Log)
    requires Inv(s) && CleanupInv(s, l) && g < |s.goroutines|
    requires s.goroutines[g].CloseLoser? || (s.goroutines[g].StoreClient? && s.goroutines[g].addr !in s.clients)
    ensures CleanupInv(Advance(s, g, ok), l)
  {
    SettledPasses(s, g, ok, l);
    hide CleanupInv, Inv, Advance, UsesStored;
    PassKeeps(s, Advance(s, g, ok), g, s.goroutines[g].client, l);
  }

  lemma SettledPasses(s: State, g: nat, ok: bool, l: Log)
    requires Inv(s) && CleanupInv(s, l) && g < |s.goroutines|
    requires s.goroutines[g].CloseLoser? || (s.goroutines[g].StoreClient? && s.goroutines[g].addr !in s.clients)
    ensures var t := Advance(s, g, ok); Passes(s, t, g, s.goroutines[g].client) && UsesStored(t, t.goroutines[g])
  {
    var pc := s.goroutines[g];
    assert GoroutineOk(s, g, pc) && UsesStored(s, pc);
    hide Inv, CleanupInv, Passes;
    if pc.CloseLoser? {
      HandPasses(s, g, Got(pc.addr, pc.caller, pc.winner), pc.client, Discarded);
    } else {
      HandPasses(s, g, Got(pc.addr, pc.caller, pc.client), pc.client, Table);
    }
    var who := if pc.CloseLoser? then Discarded else Table;
    var next := Got(pc.addr, pc.caller, if pc.CloseLoser? then pc.winner else pc.client);
    SamePasses(s, Hand(Goto(s, g, next), pc.client, who), Advance(s, g, ok), g, pc.client);
  }

  lemma HandPasses(s: State, g: nat, pc: Pc, c: nat, who: Owner)
    requires g < |s.goroutines| && c < |s.owner| && s.owner[c].Creator? && (who.Discarded? || who.Table?)
    requires UsesStored(s, pc) || (who.Table? && pc.StreamSend? && pc.client == c)
    ensures var t := Hand(Goto(s, g, pc), c, who); Passes(s, t, g, c) && UsesStored(t, pc) && t.goroutines[g] == pc
  {
  }

  lemma SamePasses(s: State, u: State, t: State, g: nat, c: nat)
    requires Passes(s, u, g, c) && t.goroutines == u.goroutines && t.owner == u.owner && t.broken == u.broken
    requires UsesStored(u, u.goroutines[g])
    ensures Passes(s, t, g, c) && UsesStored(t, t.goroutines[g])
  {
  }

  lemma SpawnKeepsCleanup(s: State, g: nat, ok: bool, l: Log)
    requires CleanupInv(s, l) && g < |s.goroutines|
    requires s.goroutines[g].SpawnRecv? || s.goroutines[g].Respawn?
    ensures CleanupInv(Advance(s, g, ok), l)
  {
    MoveKeeps(s, Advance(s, g, ok), g, l, l);
  }

  lemma GetClientKeepsCleanup(s: State, g: nat, ok: bool, l: Log)
    requires Inv(s) && CleanupInv(s, l) && g < |s.goroutines|
    requires s.goroutines[g].GetLoad? || s.goroutines[g].Dial? || HoldsFresh(s.goroutines[g])
    ensures CleanupInv(Advance(s, g, ok), l)
  {
    hide Inv, CleanupInv, WasStored;
    match s.goroutines[g]
    case GetLoad(a, k) =>
      TableIsMap(s, a, 0);
      GotoKeepsCleanup(s, g, if a in s.clients then Got(a, k, s.clients[a]) else Dial(a, k), l);
    case Dial(a, k) => if ok { CreateKeepsCleanup(s, g, l); } else { GotoKeepsCleanup(s, g, Failed(a, k), l); }
    case SpawnRecv(a, k, c) => SpawnKeepsCleanup(s, g, ok, l);
    case StoreClient(a, k, c) =>
      TableIsMap(s, a, 0);
      if a in s.clients {
        GotoKeepsCleanup(s, g, CloseLoser(a, k, c, s.clients[a]), l);
      } else {
        SettledKeepsCleanup(s, g, ok, l);
      }
    case CloseLoser(a, k, c, w) => SettledKeepsCleanup(s, g, ok, l);
  }

  /** `CompareAndDelete`, won or lost: the client is not in use afterwards. */
  lemma DeleteKeepsCleanup(s: State, g: nat, ok: bool, l: Log)
    requires Inv(s) && CleanupInv(s, l) && g < |s.goroutines|
    requires s.goroutines[g].SendDelete? || s.goroutines[g].RecvDelete?
    ensures CleanupInv(Advance(s, g, ok), l)
  {
    var pc := s.goroutines[g];
    var a, c := pc.addr, pc.client;
    assert GoroutineOk(s, g, pc) && UsesStored(s, pc);
    TableIsMap(s, a, c);
    hide Inv, CleanupInv;
    if a in s.clients && s.clients[a] == c {
      WinPasses(s, g, a, c);
      hide Passes;
      PassKeeps(s, CompareAndDelete(s, g, a, c), g, c, l);
    } else {
      GotoKeepsCleanup(s, g, Returned, l);
    }
  }

  lemma WinPasses(s: State, g: nat, a: Address, c: nat)
    requires g < |s.goroutines| && a in s.clients && s.clients[a] == c && WasStored(s, c)
    ensures var t := CompareAndDelete(s, g, a, c);
      Passes(s, t, g, c) && UsesStored(t, t.goroutines[g]) && !InUse(t, c)
  {
  }

  lemma RecvLoadKeepsCleanup(s: State, g: nat, ok: bool, l: Log)
    requires Inv(s) && CleanupInv(s, l) && g < |s.goroutines| && s.goroutines[g].RecvLoad?
    ensures CleanupInv(Advance(s, g, ok), Noted(s, Step(g, ok), l))
  {
    var pc := s.goroutines[g];
    assert GoroutineOk(s, g, pc);
    TableIsMap(s, pc.addr, pc.client);
    hide Inv, ClientOk;
    MoveKeeps(s, Advance(s, g, ok), g, l, Noted(s, Step(g, ok), l));
  }

  lemma StreamKeepsCleanup(s: State, g: nat, ok: bool, l: Log)
    requires Inv(s) && CleanupInv(s, l) && g < |s.goroutines|
    requires s.goroutines[g].StreamSend? || s.goroutines[g].Receiving?
    ensures CleanupInv(Advance(s, g, ok), Noted(s, Step(g, ok), l))
  {
    var pc := s.goroutines[g];
    assert GoroutineOk(s, g, pc) && UsesStored(s, pc);
    hide Inv, ClientOk;
    MoveKeeps(s, Advance(s, g, ok), g, l, Noted(s, Step(g, ok), l));
  }

  lemma StillMoves(s: State, g: nat, pc: Pc, l: Log)
    requires CleanupInv(s, l) && g < |s.goroutines| && s.goroutines[g].CloseRemoved? && pc.SpawnReconnect?
    ensures CleanupInv(Goto(s, g, pc), l)
  {
    GotoKeepsCleanup(s, g, pc, l);
  }

  /** The counters and the agents do not matter. */
  lemma SameButLogs(s: State, t: State, l: Log)
    requires CleanupInv(s, l) && t.goroutines == s.goroutines && t.owner == s.owner && t.broken == s.broken
    ensures CleanupInv(t, l)
  {
    hide LogOk, UsesStored;
    assert forall pc :: UsesStored(s, pc) == UsesStored(t, pc) by { SameOwners(s, t, l); }
    SameOwners(s, t, l);
    forall c | c in t.broken && InUse(t, c) && c !in l.missed ensures Doomed(t, c) {
      assert InUse(s, c) && Doomed(s, c);
    }
    forall c | c in l.failed && InUse(t, c) ensures SendDoomed(t, c) {
      assert InUse(s, c) && SendDoomed(s, c);
    }
  }

  lemma SameOwners(s: State, t: State, l: Log)
    requires t.owner == s.owner && t.broken == s.broken
    ensures forall pc :: UsesStored(s, pc) == UsesStored(t, pc)
    ensures LogOk(s, l) == LogOk(t, l)
  {
  }

  lemma RestartMoves(s: State, g: nat, l: Log)
    requires Inv(s) && CleanupInv(s, l) && g < |s.goroutines| && s.goroutines[g].SpawnReconnect?
    ensures CleanupInv(Advance(s, g, true), l) && Advance(s, g, false) == Advance(s, g, true)
  {
    var pc := s.goroutines[g];
    assert GoroutineOk(s, g, pc);
    hide Inv, CleanupInv;
    var u := Hand(Goto(s, g, Returned), pc.client, Restarted);
    RestartPasses(s, g);
    PassKeeps(s, u, g, pc.client, l);
    var v := With(u, ReconnectLoad(pc.addr));
    WithKeeps(u, pc.addr, l);
    SameButLogs(v, Advance(s, g, true), l);
  }

  lemma RestartPasses(s: State, g: nat)
    requires g < |s.goroutines| && s.goroutines[g].SpawnReconnect? && WasStored(s, s.goroutines[g].client)
    ensures var u := Hand(Goto(s, g, Returned), s.goroutines[g].client, Restarted);
      Passes(s, u, g, s.goroutines[g].client) && UsesStored(u, u.goroutines[g])
  {
  }

  lemma WithKeeps(s: State, a: Address, l: Log)
    requires CleanupInv(s, l)
    ensures CleanupInv(With(s, ReconnectLoad(a)), l)
  {
    MoveKeeps(s, With(s, ReconnectLoad(a)), |s.goroutines|, l, l);
  }

  /** The winner of a removal closes the client, or starts `reconnect`. */
  lemma RemoverKeepsCleanup(s: State, g: nat, ok: bool, l: Log)
    requires Inv(s) && CleanupInv(s, l) && g < |s.goroutines| && OwesRestart(s.goroutines[g])
    ensures CleanupInv(Advance(s, g, ok), l)
  {
    hide Inv, ClientOk, CleanupInv;
    var pc, t := s.goroutines[g], Advance(s, g, ok);
    if pc.CloseRemoved? {
      StillMoves(s, g, SpawnReconnect(pc.addr, pc.client), l);
      SameButLogs(Goto(s, g, SpawnReconnect(pc.addr, pc.client)), t, l);
    } else {
      RestartMoves(s, g, l);
    }
  }

  lemma ReconnectKeepsCleanup(s: State, g: nat, ok: bool, l: Log)
    requires CleanupInv(s, l) && g < |s.goroutines|
    requires s.goroutines[g].ReconnectLoad? || s.goroutines[g].ReconnectReload? || s.goroutines[g].ReconnectWait?
    ensures CleanupInv(Advance(s, g, ok), l)
  {
    hide CleanupInv;
    GotoKeepsCleanup(s, g, Advance(s, g, ok).goroutines[g], l);
  }

  lemma StepKeepsCleanup(s: State, act: Action, l: Log)
    requires Inv(s) && CleanupInv(s, l) && Enabled(s, act)
    ensures CleanupInv(Apply(s, act), Noted(s, act, l))
  {
    match act
    case CallSend(a) => MoveKeeps(s, Apply(s, act), |s.goroutines|, l, l);
    case Step(g, ok) =>
      hide Inv, CleanupInv, Advance;
      var pc := s.goroutines[g];
      if pc.GetLoad? || pc.Dial? || HoldsFresh(pc) {
        GetClientKeepsCleanup(s, g, ok, l);
      } else if pc.SendDelete? || pc.RecvDelete? {
        DeleteKeepsCleanup(s, g, ok, l);
      } else if pc.RecvLoad? {
        RecvLoadKeepsCleanup(s, g, ok, l);
      } else if pc.StreamSend? || pc.Receiving? {
        StreamKeepsCleanup(s, g, ok, l);
      } else if OwesRestart(pc) {
        RemoverKeepsCleanup(s, g, ok, l);
      } else if pc.Respawn? {
        SpawnKeepsCleanup(s, g, ok, l);
      } else {
        ReconnectKeepsCleanup(s, g, ok, l);
      }
  }

  lemma {:induction false} RunKeepsCleanup(s: State, acts: seq<Action>, l: Log)
    requires Inv(s) && CleanupInv(s, l) && Runs(s, acts)
    ensures Inv(Final(s, acts)) && CleanupInv(Final(s, acts), FinalLog(s, acts, l))
    decreases |acts|
  {
    hide Inv, CleanupInv, Apply, Noted;
    if acts != [] {
      StepKeepsInv(s, acts[0]);
      StepKeepsCleanup(s, acts[0], l);
      RunKeepsCleanup(Apply(s, acts[0]), acts[1..], Noted(s, acts[0], l));
    }
  }

  lemma InitCleanup()
    ensures Inv(Init) && CleanupInv(Init, NoLog)
  {
  }

  // ---------------------------------------------------------------------------
  // Theorems

  /**
   A failed `Send` leads to a removal: in every interleaving, a client on which some
   `Send` has failed is no longer mapped, or a `Send` is about to remove it.
   */
  lemma {:induction false} FailedSendRemoves(acts: seq<Action>, c: nat)
    requires Runs(Init, acts) && c in FinalLog(Init, acts, NoLog).failed
    ensures var s := Final(Init, acts);
      Mapped(s, c) ==> exists g :: 0 <= g < |s.goroutines| && s.goroutines[g] == SendDelete(s.created[c], c)
  {
    hide Final, FinalLog, Runs;
    InitCleanup();
    RunKeepsCleanup(Init, acts, NoLog);
    var s, l := Final(Init, acts), FinalLog(Init, acts, NoLog);
    if Mapped(s, c) {
      MappedInUse(s, c);
      hide Inv, CleanupInv;
      SendDoomOf(s, l, c);
    }
  }

  lemma MappedInUse(s: State, c: nat)
    requires Inv(s) && Mapped(s, c)
    ensures c < |s.owner| && s.owner[c].Table?
  {
  }

  lemma SendDoomOf(s: State, l: Log, c: nat)
    requires Inv(s) && CleanupInv(s, l) && c in l.failed && InUse(s, c) && c < |s.created|
    ensures exists g :: 0 <= g < |s.goroutines| && s.goroutines[g] == SendDelete(s.created[c], c)
  {
    assert SendDoomed(s, c);
    var g :| 0 <= g < |s.goroutines| && s.goroutines[g].SendDelete? && s.goroutines[g].client == c;
    assert GoroutineOk(s, g, s.goroutines[g]);
    assert s.goroutines[g] == SendDelete(s.created[c], c);
  }

  /**
   In every interleaving, a mapped client whose stream has failed is about to be
   removed - unless its receive loop looked for it when it was not yet stored.
   */
  lemma {:induction false} BrokenIsRemoved(acts: seq<Action>, c: nat)
    requires Runs(Init, acts) && Mapped(Final(Init, acts), c) && c in Final(Init, acts).broken
    ensures Doomed(Final(Init, acts), c) || c in FinalLog(Init, acts, NoLog).missed
  {
    hide Final, FinalLog, Runs;
    InitCleanup();
    RunKeepsCleanup(Init, acts, NoLog);
    MappedInUse(Final(Init, acts), c);
    hide Inv;
  }

  /**
   With no step in flight, no client on which a `Send` failed is mapped, and a mapped
   client is broken exactly if its receive loop missed it.
   */
  lemma {:induction false} QuietCleanup(acts: seq<Action>, c: nat)
    requires Runs(Init, acts) && Quiet(Final(Init, acts))
    ensures var s, l := Final(Init, acts), FinalLog(Init, acts, NoLog);
      && (c in l.failed ==> !Mapped(s, c))
      && (Mapped(s, c) ==> (c in s.broken <==> c in l.missed))
  {
    hide Final, FinalLog, Runs;
    var s, l := Final(Init, acts), FinalLog(Init, acts, NoLog);
    if c in l.failed {
      FailedSendRemoves(acts, c);
    }
    InitCleanup();
    RunKeepsCleanup(Init, acts, NoLog);
    if Mapped(s, c) && c in s.broken {
      BrokenIsRemoved(acts, c);
    }
    hide Inv;
  }

  // ---------------------------------------------------------------------------
  // Runs without interference

  /** `acts` lead from `s` to `t`. */
  predicate Leads(s: State, acts: seq<Action>, t: State) {
    Runs(s, acts) && Final(s, acts) == t
  }

  lemma LeadsOne(s: State, act: Action)
    requires Enabled(s, act)
    ensures Leads(s, [act], Apply(s, act))
  {
    hide Apply, Enabled;
    assert [act][1..] == [];
    assert Leads(Apply(s, act), [], Apply(s, act));
  }

  lemma {:induction false} LeadsThen(s: State, xs: seq<Action>, t: State, ys: seq<Action>, u: State)
    requires Leads(s, xs, t) && Leads(t, ys, u)
    ensures Leads(s, xs + ys, u)
    decreases |xs|
  {
    hide Apply, Enabled;
    if xs == [] {
      assert xs + ys == ys;
    } else {
      LeadsThen(Apply(s, xs[0]), xs[1..], t, ys, u);
      assert (xs + ys)[1..] == xs[1..] + ys;
    }
  }

  /** One more step. */
  lemma LeadsStep(s: State, xs: seq<Action>, t: State, act: Action)
    requires Leads(s, xs, t) && Enabled(t, act)
    ensures Leads(s, xs + [act], Apply(t, act))
  {
    hide Apply, Enabled, Leads;
    LeadsOne(t, act);
    LeadsThen(s, xs, t, [act], Apply(t, act));
  }

  /** The state with one more goroutine at the end. */
  function With(s: State, pc: Pc): State {
    s.(goroutines := s.goroutines + [pc])
  }

  lemma AdvanceLast(s: State, pc: Pc, next: Pc)
    ensures Goto(With(s, pc), |s.goroutines|, next) == With(s, next)
  {
    assert (s.goroutines + [pc])[|s.goroutines| := next] == s.goroutines + [next];
  }

  /** The first two steps of a `Send` to a mapped address: it finds the client. */
  lemma SendFinds(s: State, a: Address, x: bool)
    requires a in s.clients
    ensures Leads(s, [CallSend(a), Step(|s.goroutines|, x)], With(s, StreamSend(a, s.clients[a])))
  {
    hide Leads;
    var n := |s.goroutines|;
    LeadsOne(s, CallSend(a));
    AdvanceLast(s, GetLoad(a, FromSend), StreamSend(a, s.clients[a]));
    LeadsStep(s, [CallSend(a)], With(s, GetLoad(a, FromSend)), Step(n, x));
    assert [CallSend(a)] + [Step(n, x)] == [CallSend(a), Step(n, x)];
  }

  /** A `Send` to a mapped address whose stream takes the packet changes nothing. */
  lemma SendSucceeds(s: State, a: Address, x: bool)
    requires a in s.clients
    ensures Leads(s, [CallSend(a), Step(|s.goroutines|, x), Step(|s.goroutines|, true)], With(s, Returned))
  {
    hide Leads;
    var n := |s.goroutines|;
    SendFinds(s, a, x);
    AdvanceLast(s, StreamSend(a, s.clients[a]), Returned);
    LeadsStep(s, [CallSend(a), Step(n, x)], With(s, StreamSend(a, s.clients[a])), Step(n, true));
    assert [CallSend(a), Step(n, x)] + [Step(n, true)] == [CallSend(a), Step(n, x), Step(n, true)];
  }

  /** `Step`s of one goroutine, with these answers. */
  function Steps(g: nat, oks: seq<bool>): (acts: seq<Action>)
    ensures |acts| == |oks| && forall i :: 0 <= i < |acts| ==> acts[i] == Step(g, oks[i])
  {
    if oks == [] then [] else Steps(g, oks[..|oks| - 1]) + [Step(g, oks[|oks| - 1])]
  }

  lemma LeadsNext(s: State, g: nat, oks: seq<bool>, t: State, ok: bool)
    requires Leads(s, Steps(g, oks), t) && Enabled(t, Step(g, ok))
    ensures Leads(s, Steps(g, oks + [ok]), Apply(t, Step(g, ok)))
  {
    hide Apply, Enabled, Leads;
    LeadsStep(s, Steps(g, oks), t, Step(g, ok));
    assert (oks + [ok])[..|oks|] == oks;
  }

  lemma LeadsFirst(s: State, g: nat, ok: bool)
    requires Enabled(s, Step(g, ok))
    ensures Leads(s, Steps(g, [ok]), Apply(s, Step(g, ok)))
  {
    hide Apply, Enabled, Leads;
    LeadsOne(s, Step(g, ok));
    assert Steps(g, [ok]) == [Step(g, ok)];
  }

  /** History and map after goroutine `n` removed the client of `a`. */
  function Removed(s: State, a: Address, n: nat): State
    requires a in s.clients
  {
    var c := s.clients[a];
    Hand(s, c, Remover(n))
      .(clients := s.clients - {a}, removals := s.removals + multiset{c}, agent := s.agent[a := n])
  }

  lemma RemoveStep(s: State, a: Address, x: bool)
    requires a in s.clients
    ensures var n, c := |s.goroutines|, s.clients[a];
      Apply(With(s, SendDelete(a, c)), Step(n, x)) == With(Removed(s, a, n), CloseRemoved(a, c))
  {
    AdvanceLast(s, SendDelete(a, s.clients[a]), CloseRemoved(a, s.clients[a]));
  }

  lemma CloseStep(s: State, a: Address, c: nat, x: bool)
    ensures Apply(With(s, CloseRemoved(a, c)), Step(|s.goroutines|, x))
         == With(s.(closes := s.closes + multiset{c}), SpawnReconnect(a, c))
  {
    AdvanceLast(s, CloseRemoved(a, c), SpawnReconnect(a, c));
  }

  lemma BreakStep(s: State, a: Address, c: nat)
    ensures Apply(With(s, StreamSend(a, c)), Step(|s.goroutines|, false)) == With(Break(s, c), SendDelete(a, c))
  {
    AdvanceLast(Break(s, c), StreamSend(a, c), SendDelete(a, c));
  }

  lemma RestartStep(s: State, a: Address, c: nat, x: bool)
    ensures var t := Apply(With(s, SpawnReconnect(a, c)), Step(|s.goroutines|, x));
      && t.clients == s.clients && t.created == s.created && t.removals == s.removals && t.closes == s.closes
      && t.goroutines == s.goroutines + [Returned, ReconnectLoad(a)]
  {
    AdvanceLast(s, SpawnReconnect(a, c), Returned);
  }

  /**
   A `Send` whose stream fails, when nobody interferes: its client is unmapped and
   closed, and a `reconnect` starts.
   */
  lemma SendFails(s: State, a: Address, x: bool) returns (t: State)
    requires a in s.clients
    ensures var n, c := |s.goroutines|, s.clients[a];
      && Leads(With(s, StreamSend(a, c)), Steps(n, [false, x, x, x]), t)
      && t.clients == s.clients - {a} && t.created == s.created
      && t.removals == s.removals + multiset{c} && t.closes == s.closes + multiset{c}
      && t.goroutines == s.goroutines + [Returned, ReconnectLoad(a)]
  {
    hide Leads, Steps, Apply;
    var n, c := |s.goroutines|, s.clients[a];
    var s0 := With(s, StreamSend(a, c));
    BreakStep(s, a, c);
    LeadsFirst(s0, n, false);
    var u := Break(s, c);
    RemoveStep(u, a, x);
    LeadsNext(s0, n, [false], With(u, SendDelete(a, c)), x);
    var v := Removed(u, a, n);
    CloseStep(v, a, c, x);
    LeadsNext(s0, n, [false] + [x], With(v, CloseRemoved(a, c)), x);
    var w := v.(closes := v.closes + multiset{c});
    RestartStep(w, a, c, x);
    LeadsNext(s0, n, [false] + [x] + [x], With(w, SpawnReconnect(a, c)), x);
    t := Apply(With(w, SpawnReconnect(a, c)), Step(n, x));
    assert [false] + [x] + [x] + [x] == [false, x, x, x];
  }

  /** `getClient` of an address that is not mapped, when the dial succeeds and nobody interferes. */
  lemma Connects(s: State, a: Address, k: Caller, x: bool) returns (t: State)
    requires a !in s.clients
    ensures var n, c := |s.goroutines|, |s.created|;
      && Leads(With(s, GetLoad(a, k)), Steps(n, [x, true, x, x]), t)
      && t.clients == s.clients[a := c] && t.created == s.created + [a] && t.closes == s.closes
      && t.goroutines == s.goroutines + [if k.FromSend? then StreamSend(a, c) else Returned, Receiving(a, c)]
  {
    hide Leads, Steps;
    var n, c := |s.goroutines|, |s.created|;
    var s0 := With(s, GetLoad(a, k));
    LeadsFirst(s0, n, x);
    AdvanceLast(s, GetLoad(a, k), Dial(a, k));
    LeadsNext(s0, n, [x], With(s, Dial(a, k)), true);
    AdvanceLast(s, Dial(a, k), SpawnRecv(a, k, c));
    var u := s.(created := s.created + [a], owner := s.owner + [Creator(n)]);
    assert Apply(With(s, Dial(a, k)), Step(n, true)) == With(u, SpawnRecv(a, k, c));
    LeadsNext(s0, n, [x] + [true], With(u, SpawnRecv(a, k, c)), x);
    AdvanceLast(u, SpawnRecv(a, k, c), StoreClient(a, k, c));
    var v := With(With(u, StoreClient(a, k, c)), Receiving(a, c));
    assert Apply(With(u, SpawnRecv(a, k, c)), Step(n, x)) == v;
    LeadsNext(s0, n, [x] + [true] + [x], v, x);
    t := Apply(v, Step(n, x));
    assert [x] + [true] + [x] + [x] == [x, true, x, x];
    assert t.goroutines == v.goroutines[n := Got(a, k, c)];
  }

  /** A client that finds its address taken is closed, and its creator goes on with the mapped one. */
  lemma LoserGivesWay(s: State, a: Address, k: Caller, c: nat, x: bool) returns (t: State)
    requires a in s.clients
    ensures var n, w := |s.goroutines|, s.clients[a];
      && Leads(With(s, StoreClient(a, k, c)), Steps(n, [x, x]), t)
      && t.clients == s.clients && t.created == s.created && t.closes == s.closes + multiset{c}
      && t.goroutines == s.goroutines + [if k.FromSend? then StreamSend(a, w) else Returned]
  {
    hide Leads, Steps;
    var n, w := |s.goroutines|, s.clients[a];
    var s0 := With(s, StoreClient(a, k, c));
    LeadsFirst(s0, n, x);
    AdvanceLast(s, StoreClient(a, k, c), CloseLoser(a, k, c, w));
    LeadsNext(s0, n, [x], With(s, CloseLoser(a, k, c, w)), x);
    AdvanceLast(s, CloseLoser(a, k, c, w), Got(a, k, w));
    t := Apply(With(s, CloseLoser(a, k, c, w)), Step(n, x));
    assert [x] + [x] == [x, x];
  }

  /** A receive loop goes on as long as its stream does, and a `Send` whose dial fails just returns. */
  lemma OneStepRuns(s: State, a: Address, c: nat)
    ensures Leads(With(s, Receiving(a, c)), Steps(|s.goroutines|, [true]), With(s, Receiving(a, c)))
    ensures Leads(With(s, Dial(a, FromSend)), Steps(|s.goroutines|, [false]), With(s, Returned))
  {
    hide Leads, Steps;
    LeadsFirst(With(s, Receiving(a, c)), |s.goroutines|, true);
    LeadsFirst(With(s, Dial(a, FromSend)), |s.goroutines|, false);
    AdvanceLast(s, Dial(a, FromSend), Returned);
  }

  /** A `reconnect` of a mapped address ends at once; of an unmapped one, it goes on to `getClient`. */
  lemma ReconnectBegins(s: State, a: Address, x: bool)
    ensures var n := |s.goroutines|;
      if a in s.clients then Leads(With(s, ReconnectLoad(a)), Steps(n, [x]), With(s, Returned))
      else Leads(With(s, ReconnectLoad(a)), Steps(n, [x, x, x]), With(s, GetLoad(a, FromReconnect)))
  {
    hide Leads, Steps;
    var n := |s.goroutines|;
    var s0 := With(s, ReconnectLoad(a));
    LeadsFirst(s0, n, x);
    if a in s.clients {
      AdvanceLast(s, ReconnectLoad(a), Returned);
    } else {
      AdvanceLast(s, ReconnectLoad(a), ReconnectReload(a));
      LeadsNext(s0, n, [x], With(s, ReconnectReload(a)), x);
      AdvanceLast(s, ReconnectReload(a), ReconnectWait(a));
      LeadsNext(s0, n, [x] + [x], With(s, ReconnectWait(a)), x);
      AdvanceLast(s, ReconnectWait(a), GetLoad(a, FromReconnect));
      assert [x] + [x] + [x] == [x, x, x];
    }
  }

  /** When its dial fails, a `reconnect` ends by starting another. */
  lemma ReconnectFails(s: State, a: Address, x: bool) returns (t: State)
    ensures Leads(With(s, Dial(a, FromReconnect)), Steps(|s.goroutines|, [false, x]), t)
    ensures t.clients == s.clients && t.created == s.created && t.closes == s.closes
    ensures t.goroutines == s.goroutines + [Returned, ReconnectLoad(a)]
  {
    hide Leads, Steps;
    var n := |s.goroutines|;
    var s0 := With(s, Dial(a, FromReconnect));
    LeadsFirst(s0, n, false);
    AdvanceLast(s, Dial(a, FromReconnect), Respawn(a));
    LeadsNext(s0, n, [false], With(s, Respawn(a)), x);
    AdvanceLast(s, Respawn(a), Returned);
    t := Apply(With(s, Respawn(a)), Step(n, x));
    assert [false] + [x] == [false, x];
  }

  /**
   The one interleaving family in which a dead client stays mapped: its stream fails, and
   its receive loop looks for it, between the start of that loop and the store.
   */
  lemma DeadClientStays(a: Address) returns (acts: seq<Action>)
    ensures Runs(Init, acts)
    ensures var s := Final(Init, acts); Quiet(s) && Mapped(s, 0) && 0 in s.broken
  {
    acts := [CallSend(a)] + Steps(0, [true, true, true]) + Steps(1, [false, true]) + Steps(0, [true, true]);
    var s1 := DeadBefore(a);
    var s2 := DeadBetween(a, s1);
    var s3 := DeadAfter(a, s2);
    hide Leads, Steps;
    LeadsOne(Init, CallSend(a));
    LeadsThen(Init, [CallSend(a)], With(Init, GetLoad(a, FromSend)), Steps(0, [true, true, true]), s1);
    LeadsThen(Init, [CallSend(a)] + Steps(0, [true, true, true]), s1, Steps(1, [false, true]), s2);
    LeadsThen(Init, [CallSend(a)] + Steps(0, [true, true, true]) + Steps(1, [false, true]), s2,
              Steps(0, [true, true]), s3);
    LeadsMeans(Init, acts, s3);
  }

  lemma LeadsMeans(s: State, acts: seq<Action>, t: State)
    requires Leads(s, acts, t)
    ensures Runs(s, acts) && Final(s, acts) == t
  {
  }

  /** The client exists and its receive loop has started. */
  lemma DeadBefore(a: Address) returns (t: State)
    ensures Leads(With(Init, GetLoad(a, FromSend)), Steps(0, [true, true, true]), t)
    ensures t == Init.(created := [a], owner := [Creator(0)],
                       goroutines := [StoreClient(a, FromSend, 0), Receiving(a, 0)])
  {
    hide Leads, Steps;
    var s0 := With(Init, GetLoad(a, FromSend));
    LeadsFirst(s0, 0, true);
    AdvanceLast(Init, GetLoad(a, FromSend), Dial(a, FromSend));
    LeadsNext(s0, 0, [true], With(Init, Dial(a, FromSend)), true);
    AdvanceLast(Init, Dial(a, FromSend), SpawnRecv(a, FromSend, 0));
    var u := Init.(created := [a], owner := [Creator(0)]);
    assert Init.created + [a] == [a] && Init.owner + [Creator(0)] == [Creator(0)];
    assert Apply(With(Init, Dial(a, FromSend)), Step(0, true)) == With(u, SpawnRecv(a, FromSend, 0));
    LeadsNext(s0, 0, [true] + [true], With(u, SpawnRecv(a, FromSend, 0)), true);
    AdvanceLast(u, SpawnRecv(a, FromSend, 0), StoreClient(a, FromSend, 0));
    t := Apply(With(u, SpawnRecv(a, FromSend, 0)), Step(0, true));
    assert [true] + [true] + [true] == [true, true, true];
  }

  /** The receive loop fails, does not find the client, and ends. */
  lemma DeadBetween(a: Address, s: State) returns (t: State)
    requires s == Init.(created := [a], owner := [Creator(0)],
                        goroutines := [StoreClient(a, FromSend, 0), Receiving(a, 0)])
    ensures Leads(s, Steps(1, [false, true]), t)
    ensures t == s.(broken := {0}, goroutines := [StoreClient(a, FromSend, 0), Returned])
  {
    hide Leads, Steps;
    LeadsFirst(s, 1, false);
    var u := s.(broken := {0}, goroutines := [StoreClient(a, FromSend, 0), RecvLoad(a, 0)]);
    assert Apply(s, Step(1, false)) == u;
    LeadsNext(s, 1, [false], u, true);
    t := Apply(u, Step(1, true));
    assert [false] + [true] == [false, true];
  }

  /** The client is stored, and the packet is taken. */
  lemma DeadAfter(a: Address, s: State) returns (t: State)
    requires s == Init.(created := [a], owner := [Creator(0)], broken := {0},
                        goroutines := [StoreClient(a, FromSend, 0), Returned])
    ensures Leads(s, Steps(0, [true, true]), t)
    ensures Quiet(t) && Mapped(t, 0) && 0 in t.broken
  {
    hide Leads, Steps;
    LeadsFirst(s, 0, true);
    var u := Apply(s, Step(0, true));
    assert u.goroutines == [StreamSend(a, 0), Returned] && u.clients == map[a := 0];
    LeadsNext(s, 0, [true], u, true);
    t := Apply(u, Step(0, true));
    assert [true] + [true] == [true, true];
  }
}
