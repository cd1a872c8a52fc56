/**
 The routing table: rules under textual keys, with a wildcard for each server type,
 and the choice of an endpoint.
 */
module Router {
  import opened Wrappers

  datatype RoutingRule = RoutingRule(
    serverType: int,
    serviceName: string,
    strategy: Strategy,
    endpoints: seq<string>,
    hashKey: string,
    worldID: int)

  /** The three strategy names that the router knows, and any other. */
  datatype Strategy = RoundRobin | ConsistentHash | RealmBased | OtherStrategy(name: string)

  // ---------------------------------------------------------------------------
  // Keys

  function Digit(d: nat): char
    requires d < 10
  {
    '0' + d as char
  }

  function Digits(n: nat): (s: string)
    ensures |s| > 0 && forall i :: 0 <= i < |s| ==> '0' <= s[i] <= '9'
  {
    if n < 10 then [Digit(n)] else Digits(n / 10) + [Digit(n % 10)]
  }

  /** `%d`. */
  function Decimal(n: int): (s: string)
    ensures forall i :: 0 <= i < |s| ==> s[i] != ':'
  {
    if n < 0 then "-" + Digits(-n) else Digits(n)
  }

  /** World 0 stands for all worlds, and so do negative ones. */
  function World(worldID: int): nat {
    if worldID <= 0 then 0 else worldID
  }

  function MakeRuleKey(serverType: int, worldID: int): string {
    if worldID <= 0 then Decimal(serverType) + ":0" else Decimal(serverType) + ":" + Decimal(worldID)
  }

  /** The number that a string of digits denotes. */
  function Value(s: string): int {
    if s == [] then 0 else 10 * Value(s[..|s| - 1]) + (s[|s| - 1] as int - '0' as int)
  }

  lemma {:induction false} ValueOfDigits(n: nat)
    ensures Value(Digits(n)) == n
  {
    if n >= 10 {
      ValueOfDigits(n / 10);
      var s := Digits(n);
      assert s[..|s| - 1] == Digits(n / 10);
    }
  }

  /** The number that a decimal text denotes. */
  function Number(s: string): int {
    if s != [] && s[0] == '-' then -Value(s[1..]) else Value(s)
  }

  lemma NumberOfDecimal(n: int)
    ensures Number(Decimal(n)) == n
  {
    hide Value;
    ValueOfDigits(if n < 0 then -n else n);
    if n < 0 {
      assert Decimal(n)[1..] == Digits(-n);
    }
  }

  /** A text before its first colon is determined by the whole. */
  lemma ColonSplits(a: string, b: string, c: string, d: string)
    requires a + ":" + b == c + ":" + d
    requires (forall i :: 0 <= i < |a| ==> a[i] != ':') && (forall i :: 0 <= i < |c| ==> c[i] != ':')
    ensures a == c && b == d
  {
    var s := a + ":" + b;
    assert s[|a|] == ':' && s[|c|] == ':';
    assert forall i :: 0 <= i < |a| ==> s[i] == a[i];
    assert forall i :: 0 <= i < |c| ==> s[i] == c[i];
    assert |a| == |c|;
    assert a == s[..|a|] && c == s[..|c|];
    assert b == s[|a| + 1..] && d == s[|c| + 1..];
  }

  lemma {:induction false} NoLeadingZero(n: nat)
    ensures n > 0 ==> Digits(n)[0] != '0'
    ensures n == 0 ==> Digits(n) == "0"
  {
    if n >= 10 {
      NoLeadingZero(n / 10);
    }
  }

  /** A key is the server type, a colon and the world, in decimals without leading zeros. */
  lemma KeyText(serverType: int, worldID: int)
    ensures MakeRuleKey(serverType, worldID) == Decimal(serverType) + ":" + Decimal(World(worldID))
    ensures Number(Decimal(serverType)) == serverType && Number(Decimal(World(worldID))) == World(worldID)
    ensures serverType > 0 ==> '1' <= Decimal(serverType)[0] <= '9'
    ensures World(worldID) > 0 ==> '1' <= Decimal(World(worldID))[0] <= '9'
  {
    hide Value, Number;
    KeyForm(serverType, worldID);
    NumberOfDecimal(serverType);
    NumberOfDecimal(World(worldID));
    if serverType >= 0 {
      NoLeadingZero(serverType);
    }
    NoLeadingZero(World(worldID));
  }

  /** Two rules share a key exactly if they are for the same server type and world. */
  lemma KeyInjective(serverType: int, worldID: int, serverType': int, worldID': int)
    ensures MakeRuleKey(serverType, worldID) == MakeRuleKey(serverType', worldID')
       <==> serverType == serverType' && World(worldID) == World(worldID')
  {
    KeyForm(serverType, worldID);
    KeyForm(serverType', worldID');
    hide Decimal;
    if MakeRuleKey(serverType, worldID) == MakeRuleKey(serverType', worldID') {
      ColonSplits(Decimal(serverType), Decimal(World(worldID)), Decimal(serverType'), Decimal(World(worldID')));
      NumberOfDecimal(serverType);
      NumberOfDecimal(serverType');
      NumberOfDecimal(World(worldID));
      NumberOfDecimal(World(worldID'));
    }
  }

  lemma KeyForm(serverType: int, worldID: int)
    ensures MakeRuleKey(serverType, worldID) == Decimal(serverType) + ":" + Decimal(World(worldID))
  {
    assert Decimal(0) == "0";
    assert ":0" == ":" + "0";
  }

  // ---------------------------------------------------------------------------
  // The table

  type Rules = map<string, RoutingRule>

  function KeyOf(rule: RoutingRule): string {
    MakeRuleKey(rule.serverType, rule.worldID)
  }

  /** The rule of exactly this server type and world. */
  function Exact(rules: Rules, serverType: int, worldID: int): Option<RoutingRule> {
    var key := MakeRuleKey(serverType, worldID);
    if key in rules then Some(rules[key]) else None
  }

  function Lookup(rules: Rules, serverType: int, worldID: int): Option<RoutingRule> {
    if worldID > 0 && Exact(rules, serverType, worldID).Some? then Exact(rules, serverType, worldID)
    else Exact(rules, serverType, 0)
  }

  /** Exactly which lookups a new rule changes. */
  lemma LookupAfterUpdate(rules: Rules, rule: RoutingRule, serverType: int, worldID: int)
    ensures Lookup(rules[KeyOf(rule) := rule], serverType, worldID) ==
      if serverType == rule.serverType
         && (World(worldID) == World(rule.worldID) || (rule.worldID <= 0 && Exact(rules, serverType, worldID).None?))
      then Some(rule)
      else Lookup(rules, serverType, worldID)
  {
    hide MakeRuleKey;
    KeyInjective(serverType, worldID, rule.serverType, rule.worldID);
    KeyInjective(serverType, 0, rule.serverType, rule.worldID);
    KeyInjective(serverType, worldID, serverType, 0);
  }

  /** Without a rule of its own, a world gets the wildcard's, and no other lookup changes. */
  lemma LookupAfterRemove(rules: Rules, removedType: int, removedWorld: int, serverType: int, worldID: int)
    ensures Lookup(rules - {MakeRuleKey(removedType, removedWorld)}, serverType, worldID) ==
      if serverType != removedType then Lookup(rules, serverType, worldID)
      else if World(worldID) == World(removedWorld) then (if worldID > 0 then Exact(rules, serverType, 0) else None)
      else if removedWorld <= 0 then Exact(rules, serverType, worldID)
      else Lookup(rules, serverType, worldID)
  {
    hide MakeRuleKey;
    KeyInjective(serverType, worldID, removedType, removedWorld);
    KeyInjective(serverType, 0, removedType, removedWorld);
    KeyInjective(serverType, worldID, serverType, 0);
  }

  // ---------------------------------------------------------------------------
  // The router, one call at a time

  datatype Routed = Endpoint(endpoint: string) | NoRule | NoEndpoints | UnknownStrategy

  /** The hash, if the request is routed by hash rather than in turn. */
  function HashOf(rule: RoutingRule, worldID: int, instID: int, crc32: string -> nat): Option<nat> {
    if rule.strategy.ConsistentHash? && instID > 0 then Some(crc32(Decimal(instID)))
    else if rule.strategy.RealmBased? && worldID > 0 && instID > 0 then
      Some(crc32("world:" + Decimal(worldID) + ":inst:" + Decimal(instID)))
    else None
  }

  function Tickets(counters: map<string, nat>, key: string): nat {
    if key in counters then counters[key] else 0
  }

  class RouterState {
    var rules: Rules
    var counters: map<string, nat>
    const crc32: string -> nat

    constructor (crc32: string -> nat)
      ensures rules == map[] && counters == map[] && this.crc32 == crc32
    {
      rules, counters, this.crc32 := map[], map[], crc32;
    }

    method UpdateRule(rule: RoutingRule)
      modifies `rules
      ensures rules == old(rules)[KeyOf(rule) := rule]
      ensures Exact(rules, rule.serverType, rule.worldID) == Some(rule)
    {
      var key := MakeRuleKey(rule.serverType, rule.worldID);
      rules := rules[key := rule];
    }

    method RemoveRule(serverType: int, worldID: int)
      modifies `rules
      ensures rules == old(rules) - {MakeRuleKey(serverType, worldID)}
      ensures Exact(rules, serverType, worldID) == None
    {
      rules := rules - {MakeRuleKey(serverType, worldID)};
    }

    method GetRule(serverType: int, worldID: int) returns (rule: Option<RoutingRule>)
      ensures rule == Lookup(rules, serverType, worldID)
    {
      if worldID > 0 {
        var key := MakeRuleKey(serverType, worldID);
        if key in rules {
          return Some(rules[key]);
        }
      }
      var wildcardKey := MakeRuleKey(serverType, 0);
      rule := if wildcardKey in rules then Some(rules[wildcardKey]) else None;
    }

    method RouteRoundRobin(serverType: int, worldID: int, rule: RoutingRule) returns (r: Routed)
      requires rule.endpoints != []
      modifies `counters
      ensures var key := MakeRuleKey(serverType, worldID);
        var ticket := Tickets(old(counters), key);
        r == Endpoint(rule.endpoints[ticket % |rule.endpoints|]) && counters == old(counters)[key := ticket + 1]
    {
      var key := MakeRuleKey(serverType, worldID);
      if key !in counters {
        counters := counters[key := 0];
      }
      counters := counters[key := counters[key] + 1];
      var count := counters[key] - 1;
      r := Endpoint(rule.endpoints[count % |rule.endpoints|]);
    }

    method RouteByServerID(serverType: int, worldID: int, instID: int) returns (r: Routed)
      modifies `counters
      ensures var rule := Lookup(rules, serverType, worldID);
        if rule.None? then r == NoRule && counters == old(counters)
        else if rule.value.endpoints == [] then r == NoEndpoints && counters == old(counters)
        else if rule.value.strategy.OtherStrategy? then r == UnknownStrategy && counters == old(counters)
        else
          var hash := HashOf(rule.value, worldID, instID, crc32);
          var key := MakeRuleKey(serverType, worldID);
          var ticket := Tickets(old(counters), key);
          && r == Endpoint(rule.value.endpoints[(if hash.Some? then hash.value else ticket) % |rule.value.endpoints|])
          && counters == if hash.Some? then old(counters) else old(counters)[key := ticket + 1]
      ensures var rule := Lookup(rules, serverType, worldID);
        rule.Some? && rule.value.endpoints != [] ==>
          var n, strategy := |rule.value.endpoints|, rule.value.strategy;
          && (strategy.ConsistentHash? && instID > 0 ==>
              r == Endpoint(rule.value.endpoints[crc32(Decimal(instID)) % n]))
          && (strategy.RealmBased? && worldID > 0 && instID > 0 ==>
              var text := "world:" + Decimal(worldID) + ":inst:" + Decimal(instID);
              r == Endpoint(rule.value.endpoints[crc32(text) % n]))
          && (strategy.RoundRobin? || (strategy.ConsistentHash? && instID <= 0)
              || (strategy.RealmBased? && (worldID <= 0 || instID <= 0)) ==>
              counters.Keys == old(counters).Keys + {MakeRuleKey(serverType, worldID)})
    {
      hide Lookup, MakeRuleKey, Decimal, Tickets;
      var found := GetRule(serverType, worldID);
      if found.None? {
        return NoRule;
      }
      var rule := found.value;
      if |rule.endpoints| == 0 {
        return NoEndpoints;
      }
      if rule.strategy.RoundRobin? {
        r := RouteRoundRobin(serverType, worldID, rule);
      } else if rule.strategy.ConsistentHash? {
        if instID > 0 {
          var hash := crc32(Decimal(instID));
          return Endpoint(rule.endpoints[hash % |rule.endpoints|]);
        }
        r := RouteRoundRobin(serverType, worldID, rule);
      } else if rule.strategy.RealmBased? {
        if worldID > 0 && instID > 0 {
          var hash := crc32("world:" + Decimal(worldID) + ":inst:" + Decimal(instID));
          return Endpoint(rule.endpoints[hash % |rule.endpoints|]);
        }
        r := RouteRoundRobin(serverType, worldID, rule);
      } else {
        r := UnknownStrategy;
      }
    }
  }
}
