/**
 The session ID generator and its parser: `generateSessionID`, one call after the
 other, on whatever the clock returns, and `ParseSessionID`.
 */
module SessionId {
  import opened Bytes
  import opened Wrappers
  import opened Arithmetic

  const TWO_40 := 0x100_0000_0000
  const TWO_52 := 0x10_0000_0000_0000

  // ---------------------------------------------------------------------------
  // The layout: 12 bits of pod hash, 40 bits of milliseconds, 12 bits of sequence

  datatype Components = Components(podHash: nat, timestamp: nat, sequence: nat)

  /** `(podHash12 << 52) | (timestampMs << 12) | seq` as an `int64`; the fields do not overlap. */
  function Pack(podHash: nat, key: nat): int64
    requires key < TWO_52
  {
    Int64(podHash % 0x1000 * TWO_52 + key)
  }

  /** The low 52 bits of an ID: timestamp and sequence. */
  function Key(timestamp: nat, sequence: nat): (k: nat)
    requires timestamp < TWO_40 && sequence < 0x1000
    ensures k < TWO_52
  {
    timestamp * 0x1000 + sequence
  }

  function ParseSessionID(id: int64): Components {
    var u := id % TWO_64;
    Components(u / TWO_52 % 0x1000, u / 0x1000 % TWO_40, u % 0x1000)
  }

  /** The three fields do not overlap, so joining them with `|` adds them up. */
  lemma FieldsDisjoint(pod: bv64, timestamp: bv64, sequence: bv64)
    requires pod < 0x1000 && timestamp < 0x100_0000_0000 && sequence < 0x1000
    ensures (pod << 52) | (timestamp << 12) | sequence == (pod << 52) + (timestamp << 12) + sequence
  {
  }

  /** The fields of the 64 bits. */
  lemma FieldsOf(pod: nat, timestamp: nat, sequence: nat)
    requires pod < 0x1000 && timestamp < TWO_40 && sequence < 0x1000
    ensures var x := pod * TWO_52 + Key(timestamp, sequence);
      x < TWO_64 && x / TWO_52 == pod && x / 0x1000 % TWO_40 == timestamp && x % 0x1000 == sequence
  {
    var x, y := pod * TWO_52 + Key(timestamp, sequence), pod * TWO_40 + timestamp;
    assert x == y * 0x1000 + sequence;
    DivMod(x, TWO_52, pod, Key(timestamp, sequence));
    DivMod(x, 0x1000, y, sequence);
    DivMod(y, TWO_40, pod, timestamp);
  }

  /** Parsing recovers the fields of every ID, negative ones included. */
  lemma ParseRoundTrip(podHash: nat, timestamp: nat, sequence: nat)
    requires timestamp < TWO_40 && sequence < 0x1000
    ensures ParseSessionID(Pack(podHash, Key(timestamp, sequence)))
         == Components(podHash % 0x1000, timestamp, sequence)
  {
    var pod := podHash % 0x1000;
    FieldsOf(pod, timestamp, sequence);
    SameBits(pod * TWO_52 + Key(timestamp, sequence));
    DivMod(pod, 0x1000, 0, pod);
  }

  /** The `int64` of 64 bits has the same bits. */
  lemma SameBits(x: nat)
    requires x < TWO_64
    ensures Int64(x) % TWO_64 == x
  {
  }

  /** IDs of one pod are ordered by time, then sequence; they are negative for half of the pods. */
  lemma PackOrder(podHash: nat, k: nat, m: nat)
    requires k < TWO_52 && m < TWO_52
    ensures Pack(podHash, k) < Pack(podHash, m) <==> k < m
    ensures Pack(podHash, k) < 0 <==> podHash % 0x1000 >= 0x800
  {
  }

  // ---------------------------------------------------------------------------
  // One iteration of the loop

  /** `lastTimestamp` and `sessionSeq`. */
  datatype State = State(last: nat, seqNo: nat)

  const Init := State(0, 0)

  predicate Valid(s: State) {
    s.last < TWO_40 && s.seqNo < TWO_64
  }

  /** One iteration with the clock at `t` milliseconds: the new state, and the key it issues if it does not sleep. */
  datatype Outcome = Outcome(state: State, issued: seq<nat>)

  function Attempt(s: State, t: int): (o: Outcome)
    requires Valid(s)
    ensures Valid(o.state) && |o.issued| <= 1 && forall k :: k in o.issued ==> k < TWO_52
  {
    var timestamp := t % TWO_40;
    if timestamp < s.last then Outcome(s, [])
    else if timestamp == s.last then
      var next := (s.seqNo + 1) % TWO_64;
      Outcome(State(s.last, next), if next % 0x1000 == 0 then [] else [Key(timestamp, next % 0x1000)])
    else Outcome(State(timestamp, 1), [Key(timestamp, 1)])
  }

  /** The state after, and the keys issued by, a run of iterations. */
  function After(s: State, ts: seq<int>): (r: State)
    requires Valid(s)
    ensures Valid(r)
    decreases |ts|
  {
    if ts == [] then s else After(Attempt(s, ts[0]).state, ts[1..])
  }

  function Issued(s: State, ts: seq<int>): (ks: seq<nat>)
    requires Valid(s)
    ensures forall i :: 0 <= i < |ks| ==> ks[i] < TWO_52
    decreases |ts|
  {
    if ts == [] then [] else Attempt(s, ts[0]).issued + Issued(Attempt(s, ts[0]).state, ts[1..])
  }

  // ---------------------------------------------------------------------------
  // The generator

  class Generator {
    var lastTimestamp: nat
    var sessionSeq: nat
    const podHash: uint16

    constructor (podHash: uint16)
      ensures Now() == Init && this.podHash == podHash
    {
      this.podHash := podHash;
      lastTimestamp, sessionSeq := 0, 0;
    }

    ghost function Now(): State
      reads this
    {
      State(lastTimestamp, sessionSeq)
    }

    /**
     One call of `generateSessionID` when the clock returns `clock[0]`, `clock[1]`, ...
     to its iterations; it is still waiting if the readings run out.
     */
    method Generate(clock: seq<int>) returns (id: Option<int64>, used: nat)
      requires Valid(Now())
      modifies this
      ensures Valid(Now()) && used <= |clock|
      ensures Now() == After(old(Now()), clock[..used])
      ensures id.None? ==> used == |clock| && Issued(old(Now()), clock) == []
      ensures id.Some? ==> used > 0 && Issued(old(Now()), clock[..used - 1]) == []
      ensures id.Some? ==> ParseSessionID(id.value).timestamp == clock[used - 1] % TWO_40
      ensures id.Some? ==> exists k: nat ::
        k < TWO_52 && Issued(old(Now()), clock[..used]) == [k] && id.value == Pack(podHash, k)
    {
      used, id := 0, None;
      while used < |clock|
        invariant used <= |clock| && Valid(Now())
        invariant Now() == After(old(Now()), clock[..used])
        invariant Issued(old(Now()), clock[..used]) == []
      {
        var timestampMs := clock[used] % TWO_40;
        RunAppend(old(Now()), clock[..used], clock[used]);
        assert clock[..used + 1] == clock[..used] + [clock[used]];
        assert clock[..used + 1][..used] == clock[..used];
        used := used + 1;
        if timestampMs < lastTimestamp {
          continue;
        }
        var seq_: nat;
        if timestampMs == lastTimestamp {
          sessionSeq := (sessionSeq + 1) % TWO_64;
          seq_ := sessionSeq % 0x1000;
          if seq_ == 0 {
            continue;
          }
        } else {
          lastTimestamp := timestampMs;
          sessionSeq := 1;
          seq_ := 1;
        }
        ParseRoundTrip(podHash, timestampMs, seq_);
        id := Some(Pack(podHash, Key(timestampMs, seq_)));
        return;
      }
      assert clock[..used] == clock;
    }
  }

  lemma {:induction false} RunAppend(s: State, ts: seq<int>, t: int)
    requires Valid(s)
    ensures After(s, ts + [t]) == Attempt(After(s, ts), t).state
    ensures Issued(s, ts + [t]) == Issued(s, ts) + Attempt(After(s, ts), t).issued
    decreases |ts|
  {
    if ts == [] {
      assert ts + [t] == [t];
    } else {
      RunAppend(Attempt(s, ts[0]).state, ts[1..], t);
      assert (ts + [t])[1..] == ts[1..] + [t];
    }
  }

  // ---------------------------------------------------------------------------
  // Uniqueness

  /** The sequence of the current millisecond is used up and the clock has not left it. */
  predicate Stuck(s: State, t: int) {
    t % TWO_40 == s.last && s.seqNo >= 0x1000
  }

  predicate NeverStuck(s: State, ts: seq<int>)
    requires Valid(s)
    decreases |ts|
  {
    ts == [] || (!Stuck(s, ts[0]) && NeverStuck(Attempt(s, ts[0]).state, ts[1..]))
  }

  predicate StrictlyIncreasing(ks: seq<int>) {
    forall i, j :: 0 <= i < j < |ks| ==> ks[i] < ks[j]
  }

  /** No key at or below this one is issued any more. */
  function Floor(s: State): int {
    s.last * 0x1000 + (if s.seqNo < 0x1000 then s.seqNo else 0xFFF)
  }

  lemma {:induction false} KeysIncrease(s: State, ts: seq<int>)
    requires Valid(s) && s.seqNo <= 0x1000 && NeverStuck(s, ts)
    ensures StrictlyIncreasing(Issued(s, ts))
    ensures forall i :: 0 <= i < |Issued(s, ts)| ==> Issued(s, ts)[i] > Floor(s)
    decreases |ts|
  {
    if ts != [] {
      var o := Attempt(s, ts[0]);
      KeysIncrease(o.state, ts[1..]);
      assert o.issued != [] ==> o.issued[0] == Floor(o.state);
      assert Floor(s) <= Floor(o.state);
    }
  }

  /** Every key of the current millisecond up to the current sequence number was issued. */
  predicate Covered(done: seq<nat>, s: State)
    requires Valid(s)
  {
    forall q :: 1 <= q <= s.seqNo && q < 0x1000 ==> Key(s.last, q) in done
  }

  predicate HasRepeat(ks: seq<int>) {
    exists i, j :: 0 <= i < j < |ks| && ks[i] == ks[j]
  }

  /** The first stuck iteration issues a key of this millisecond again. */
  lemma {:induction false} StuckRepeats(done: seq<nat>, s: State, ts: seq<int>)
    requires Valid(s) && s.seqNo <= 0x1000 && Covered(done, s) && !NeverStuck(s, ts)
    ensures HasRepeat(done + Issued(s, ts))
    decreases |ts|
  {
    var o := Attempt(s, ts[0]);
    var all := done + Issued(s, ts);
    assert all == done + o.issued + Issued(o.state, ts[1..]);
    if Stuck(s, ts[0]) {
      assert o.issued == [Key(s.last, 1)] && Key(s.last, 1) in done;
      var i :| 0 <= i < |done| && done[i] == Key(s.last, 1);
      assert all[i] == all[|done|];
    } else {
      assert Covered(done + o.issued, o.state);
      StuckRepeats(done + o.issued, o.state, ts[1..]);
    }
  }

  /** The IDs of a run from the start. */
  function Ids(podHash: nat, ts: seq<int>): (ids: seq<int64>)
    ensures |ids| == |Issued(Init, ts)|
    ensures forall i :: 0 <= i < |ids| ==> ids[i] == Pack(podHash, Issued(Init, ts)[i])
  {
    var ks := Issued(Init, ts);
    seq(|ks|, i requires 0 <= i < |ks| => Pack(podHash, ks[i]))
  }

  lemma {:induction false} PackedIncrease(podHash: nat, ts: seq<int>)
    requires StrictlyIncreasing(Issued(Init, ts))
    ensures StrictlyIncreasing(Ids(podHash, ts))
  {
    var ks, ids := Issued(Init, ts), Ids(podHash, ts);
    forall i, j | 0 <= i < j < |ids| ensures ids[i] < ids[j] { PackOrder(podHash, ks[i], ks[j]); }
  }

  lemma {:induction false} PackedRepeat(podHash: nat, ts: seq<int>)
    requires HasRepeat(Issued(Init, ts))
    ensures HasRepeat(Ids(podHash, ts))
  {
    var ks := Issued(Init, ts);
    var i, j :| 0 <= i < j < |ks| && ks[i] == ks[j];
    assert Ids(podHash, ts)[i] == Ids(podHash, ts)[j];
  }

  /**
   Whatever the clock returns, the IDs of a pod are strictly increasing as `int64`,
   and hence distinct, if the clock never stays in or returns to a millisecond whose
   sequence is used up; if it does, some ID is issued twice.
   */
  lemma {:induction false} IdsIncrease(podHash: nat, ts: seq<int>)
    ensures NeverStuck(Init, ts) ==> StrictlyIncreasing(Ids(podHash, ts))
    ensures !NeverStuck(Init, ts) ==> HasRepeat(Ids(podHash, ts))
  {
    if NeverStuck(Init, ts) {
      KeysIncrease(Init, ts);
      PackedIncrease(podHash, ts);
    } else {
      StuckRepeats([], Init, ts);
      assert [] + Issued(Init, ts) == Issued(Init, ts);
      PackedRepeat(podHash, ts);
    }
  }

  /** Every issued key has a sequence number from 1 to 4095. */
  lemma {:induction false} KeyFields(s: State, ts: seq<int>, i: nat)
    requires Valid(s) && i < |Issued(s, ts)|
    ensures 1 <= Issued(s, ts)[i] % 0x1000
    decreases |ts|
  {
    var o := Attempt(s, ts[0]);
    if i >= |o.issued| {
      KeyFields(o.state, ts[1..], i - |o.issued|);
    }
  }

  lemma ParsePacked(podHash: nat, key: nat)
    requires key < TWO_52
    ensures ParseSessionID(Pack(podHash, key)) == Components(podHash % 0x1000, key / 0x1000, key % 0x1000)
  {
    hide Pack, ParseSessionID;
    assert Key(key / 0x1000, key % 0x1000) == key;
    ParseRoundTrip(podHash, key / 0x1000, key % 0x1000);
  }

  lemma ParseZero()
    ensures ParseSessionID(0) == Components(0, 0, 0)
  {
  }

  /** No ID is zero, and IDs of pods with different 12-bit hashes differ, whatever their clocks return. */
  lemma {:induction false} IdsAcrossPods(p: nat, ts: seq<int>, i: nat, q: nat, us: seq<int>, j: nat)
    requires i < |Ids(p, ts)| && j < |Ids(q, us)|
    ensures Ids(p, ts)[i] != 0
    ensures ParseSessionID(Ids(p, ts)[i]).podHash == p % 0x1000 && ParseSessionID(Ids(p, ts)[i]).sequence >= 1
    ensures p % 0x1000 != q % 0x1000 ==> Ids(p, ts)[i] != Ids(q, us)[j]
  {
    hide Pack, ParseSessionID, Issued;
    KeyFields(Init, ts, i);
    ParsePacked(p, Issued(Init, ts)[i]);
    ParsePacked(q, Issued(Init, us)[j]);
    ParseZero();
  }

  // ---------------------------------------------------------------------------
  // Timestamps and sequences

  /** The readings that issued the IDs of a run, in order. */
  function IssuedAt(s: State, ts: seq<int>): (at: seq<int>)
    requires Valid(s)
    ensures |at| == |Issued(s, ts)|
    decreases |ts|
  {
    if ts == [] then []
    else (if Attempt(s, ts[0]).issued == [] then [] else [ts[0]]) + IssuedAt(Attempt(s, ts[0]).state, ts[1..])
  }

  /** The readings are among the clock's, in its order. */
  predicate Subsequence(a: seq<int>, b: seq<int>)
    decreases |b|
  {
    a == [] || (b != [] && (Subsequence(a, b[1..]) || (a[0] == b[0] && Subsequence(a[1..], b[1..]))))
  }

  lemma {:induction false} IssuedInOrder(s: State, ts: seq<int>)
    requires Valid(s)
    ensures Subsequence(IssuedAt(s, ts), ts)
    decreases |ts|
  {
    if ts != [] {
      var more := IssuedAt(Attempt(s, ts[0]).state, ts[1..]);
      IssuedInOrder(Attempt(s, ts[0]).state, ts[1..]);
      assert ([ts[0]] + more)[1..] == more && [] + more == more;
    }
  }

  lemma {:induction false} KeysCarryTime(s: State, ts: seq<int>, i: nat)
    requires Valid(s) && i < |Issued(s, ts)|
    ensures Issued(s, ts)[i] / 0x1000 == IssuedAt(s, ts)[i] % TWO_40
    decreases |ts|
  {
    var o := Attempt(s, ts[0]);
    if i < |o.issued| {
      AttemptTime(s, ts[0]);
    } else {
      KeysCarryTime(o.state, ts[1..], i - |o.issued|);
    }
  }

  lemma AttemptTime(s: State, t: int)
    requires Valid(s) && Attempt(s, t).issued != []
    ensures Attempt(s, t).issued[0] / 0x1000 == t % TWO_40
  {
  }

  /** Every ID carries the milliseconds of the reading that issued it. */
  lemma {:induction false} IdsCarryTime(podHash: nat, ts: seq<int>, i: nat)
    requires i < |Ids(podHash, ts)|
    ensures ParseSessionID(Ids(podHash, ts)[i]).timestamp == IssuedAt(Init, ts)[i] % TWO_40
    ensures Subsequence(IssuedAt(Init, ts), ts)
  {
    hide Pack, ParseSessionID, Issued, IssuedAt;
    KeysCarryTime(Init, ts, i);
    IssuedInOrder(Init, ts);
    ParsePacked(podHash, Issued(Init, ts)[i]);
  }

  function Repeat(t: int, n: nat): (ts: seq<int>)
    ensures |ts| == n && forall i :: 0 <= i < n ==> ts[i] == t
  {
    if n == 0 then [] else [t] + Repeat(t, n - 1)
  }

  lemma NextOfMillisecond(t: int, q: nat)
    requires 1 <= q < 0x1000
    ensures Attempt(State(t % TWO_40, q), t) ==
      Outcome(State(t % TWO_40, q + 1), if q + 1 == 0x1000 then [] else [Key(t % TWO_40, q + 1)])
  {
  }

  /** The rest of a millisecond, after `q` IDs. */
  lemma {:induction false} RestOfMillisecond(t: int, q: nat, n: nat)
    requires q >= 1 && q + n <= 0x1000
    ensures var ks := Issued(State(t % TWO_40, q), Repeat(t, n));
      && |ks| == (if q + n <= 0xFFF || n == 0 then n else n - 1)
      && forall i :: 0 <= i < |ks| ==> ks[i] == Key(t % TWO_40, q + 1 + i)
    decreases n
  {
    if n > 0 {
      assert Repeat(t, n)[1..] == Repeat(t, n - 1);
      NextOfMillisecond(t, q);
      hide Attempt, Repeat;
      RestOfMillisecond(t, q + 1, n - 1);
    }
  }

  /** A clock that stays in a new millisecond gets the sequences 1 to 4095 in order, and then nothing. */
  lemma {:induction false} OneMillisecond(s: State, t: int, n: nat)
    requires Valid(s) && s.last < t % TWO_40 && n <= 0x1000
    ensures var ks := Issued(s, Repeat(t, n));
      && |ks| == (if n <= 4095 then n else 4095)
      && forall i :: 0 <= i < |ks| ==> ks[i] == Key(t % TWO_40, i + 1)
  {
    if n > 0 {
      assert Repeat(t, n)[1..] == Repeat(t, n - 1);
      RestOfMillisecond(t, 1, n - 1);
    }
  }

  // ---------------------------------------------------------------------------
  // The clock the gateway runs on

  /** The iteration at `t` sleeps. */
  predicate Sleeps(s: State, t: int)
    requires Valid(s)
  {
    Attempt(s, t).issued == []
  }

  /**
   A clock that does not go back, that a sleep of one millisecond moves forward by at
   least one, and that does not cross a multiple of 2^40 milliseconds.
   */
  predicate SteadyClock(s: State, ts: seq<int>)
    requires Valid(s)
    decreases |ts|
  {
    |ts| >= 2 ==>
      && ts[0] <= ts[1] && ts[0] / TWO_40 == ts[1] / TWO_40
      && (Sleeps(s, ts[0]) ==> ts[0] < ts[1])
      && SteadyClock(Attempt(s, ts[0]).state, ts[1..])
  }

  /** The generator can go on with the clock at `t`. */
  predicate Ready(s: State, t: int) {
    s.last <= t % TWO_40 && s.seqNo <= 0x1000 && (s.seqNo == 0x1000 ==> s.last < t % TWO_40)
  }

  lemma {:induction false} SteadyFrom(s: State, ts: seq<int>)
    requires Valid(s) && SteadyClock(s, ts) && (ts != [] ==> Ready(s, ts[0]))
    ensures NeverStuck(s, ts)
    ensures |ts| >= 2 && Sleeps(s, ts[0]) ==> !Sleeps(Attempt(s, ts[0]).state, ts[1])
    decreases |ts|
  {
    if |ts| >= 2 {
      assert ts[0] < ts[1] ==> ts[0] % TWO_40 < ts[1] % TWO_40;
      assert Ready(Attempt(s, ts[0]).state, ts[1..][0]);
      SteadyFrom(Attempt(s, ts[0]).state, ts[1..]);
    }
  }

  /**
   On such a clock the IDs are strictly increasing and distinct, and a call needs at
   most two readings: no iteration sleeps right after one that slept.
   */
  lemma {:induction false} SteadyIds(podHash: nat, ts: seq<int>, k: nat)
    requires SteadyClock(Init, ts)
    ensures StrictlyIncreasing(Ids(podHash, ts))
    ensures k + 1 < |ts| && Sleeps(After(Init, ts[..k]), ts[k]) ==> !Sleeps(After(Init, ts[..k + 1]), ts[k + 1])
  {
    SteadyFrom(Init, ts);
    IdsIncrease(podHash, ts);
    if k + 1 < |ts| {
      SteadyAt(Init, ts, k);
    }
  }

  lemma {:induction false} SteadyAt(s: State, ts: seq<int>, k: nat)
    requires Valid(s) && SteadyClock(s, ts) && k + 1 < |ts| && Ready(s, ts[0])
    ensures Sleeps(After(s, ts[..k]), ts[k]) ==> !Sleeps(After(s, ts[..k + 1]), ts[k + 1])
    decreases k
  {
    SteadyFrom(s, ts);
    var s' := Attempt(s, ts[0]).state;
    assert ts[..k + 1][0] == ts[0] && ts[..k + 1][1..] == ts[1..][..k];
    if k == 0 {
      assert ts[..1] == [ts[0]] && ts[..0] == [];
      assert After(s, ts[..1]) == s';
    } else {
      assert ts[..k][1..] == ts[1..][..k - 1];
      assert ts[0] < ts[1] ==> ts[0] % TWO_40 < ts[1] % TWO_40;
      SteadyAt(s', ts[1..], k - 1);
    }
  }
}
