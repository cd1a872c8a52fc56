/**
 `mergeConsulEndpoints`: the endpoints that Consul lists for each world are merged with
 the routing configurations from Redis, by loops over unordered maps.  An iteration
 order is an input here, so that what is proved holds for every order.
 */
module RuleMerge {
  import opened Wrappers
  import opened Router

  datatype ServiceEntry = ServiceEntry(address: string, port: int)

  function EndpointsOf(entries: seq<ServiceEntry>): (r: seq<string>)
    ensures |r| == |entries|
    ensures forall i :: 0 <= i < |r| ==> r[i] == entries[i].address + ":" + Decimal(entries[i].port)
  {
    if entries == [] then []
    else
      var n := |entries| - 1;
      EndpointsOf(entries[..n]) + [entries[n].address + ":" + Decimal(entries[n].port)]
  }

  predicate Matches(config: RoutingRule, world: int, service: string) {
    && (config.worldID == world || (config.worldID == 0 && world > 0))
    && (config.serviceName == "" || config.serviceName == service)
  }

  /** The configuration's rule for a world, with the endpoints from Consul. */
  function Built(config: RoutingRule, world: int, endpoints: seq<string>): RoutingRule {
    RoutingRule(config.serverType, config.serviceName, config.strategy, endpoints, config.hashKey, world)
  }

  const GAME_SERVER_TYPE := 200

  function DefaultRule(world: int, service: string, endpoints: seq<string>): RoutingRule {
    RoutingRule(GAME_SERVER_TYPE, service, RoundRobin, endpoints, "", world)
  }

  /** What Consul lists, the configurations, and the service name that is looked for. */
  datatype Input = Input(services: map<int, seq<ServiceEntry>>, configs: Rules, service: string)

  /** The order of the loop over the worlds, and of the loop over the configurations for each world. */
  datatype Order = Order(worlds: seq<int>, configs: map<int, seq<string>>)

  predicate Enumerates<T(==)>(order: seq<T>, elements: set<T>) {
    && (forall i, j :: 0 <= i < j < |order| ==> order[i] != order[j])
    && (forall x :: x in order ==> x in elements)
    && (forall x :: x in elements ==> x in order)
  }

  predicate ValidOrder(o: Order, inp: Input) {
    && Enumerates(o.worlds, inp.services.Keys)
    && forall w :: w in inp.services ==> Covers(o.configs, inp, w)
  }

  // ---------------------------------------------------------------------------
  // The updates, in order

  /** The rules that the inner loop makes for a world. */
  function Matched(order: seq<string>, inp: Input, world: int, endpoints: seq<string>): seq<RoutingRule> {
    if order == [] then []
    else
      var n := |order| - 1;
      var rest := Matched(order[..n], inp, world, endpoints);
      if order[n] in inp.configs && Matches(inp.configs[order[n]], world, inp.service)
      then rest + [Built(inp.configs[order[n]], world, endpoints)]
      else rest
  }

  function WorldUpdates(order: seq<string>, inp: Input, world: int): seq<RoutingRule>
    requires world in inp.services
  {
    if inp.services[world] == [] then []
    else
      var endpoints := EndpointsOf(inp.services[world]);
      var rules := Matched(order, inp, world, endpoints);
      if rules == [] then [DefaultRule(world, inp.service, endpoints)] else rules
  }

  function AllUpdates(worlds: seq<int>, configs: map<int, seq<string>>, inp: Input): seq<RoutingRule> {
    if worlds == [] then []
    else
      var n := |worlds| - 1;
      var w := worlds[n];
      AllUpdates(worlds[..n], configs, inp)
      + if w in configs && w in inp.services then WorldUpdates(configs[w], inp, w) else []
  }

  function Apply(rules: Rules, updates: seq<RoutingRule>): Rules {
    if updates == [] then rules
    else
      var n := |updates| - 1;
      Apply(rules, updates[..n])[KeyOf(updates[n]) := updates[n]]
  }

  function Merged(rules: Rules, inp: Input, o: Order): Rules {
    Apply(rules, AllUpdates(o.worlds, o.configs, inp))
  }

  // ---------------------------------------------------------------------------
  // The gateway's loops

  class Gateway {
    var routingConfigs: Rules
    const router: RouterState
    const serviceName: string

    constructor (router: RouterState, serviceName: string)
      ensures routingConfigs == map[] && this.router == router && this.serviceName == serviceName
    {
      routingConfigs, this.router, this.serviceName := map[], router, serviceName;
    }

    /** The loop of `onRoutingRulesUpdate` and `loadConfigFromRedis`, over the rules in some order. */
    method StoreConfigs(rules: seq<RoutingRule>)
      requires WellKeyed(routingConfigs)
      modifies `routingConfigs
      ensures routingConfigs == StoredAll(old(routingConfigs), rules) && WellKeyed(routingConfigs)
    {
      for i := 0 to |rules|
        invariant routingConfigs == StoredAll(old(routingConfigs), rules[..i]) && WellKeyed(routingConfigs)
      {
        assert rules[..i + 1][..i] == rules[..i];
        var config := rules[i].(endpoints := []);
        routingConfigs := routingConfigs[ConfigKey(config) := config];
      }
      assert rules[..|rules|] == rules;
    }

    /** The inner loop. */
    method MergeWorld(world: int, endpoints: seq<string>, order: seq<string>) returns (matched: bool)
      requires Enumerates(order, routingConfigs.Keys)
      modifies router`rules
      ensures var rules := Matched(order, Input(map[], routingConfigs, serviceName), world, endpoints);
        router.rules == Apply(old(router.rules), rules) && matched == (rules != [])
    {
      hide Matched, Apply, KeyOf, Exact;
      ghost var inp := Input(map[], routingConfigs, serviceName);
      MatchedNone(inp, world, endpoints);
      ApplyNone(router.rules);
      matched := false;
      for i := 0 to |order|
        invariant router.rules == Apply(old(router.rules), Matched(order[..i], inp, world, endpoints))
        invariant matched == (Matched(order[..i], inp, world, endpoints) != [])
      {
        MatchedNext(order, i, inp, world, endpoints);
        assert order[i] in order;
        var config := routingConfigs[order[i]];
        if config.worldID == world || (config.worldID == 0 && world > 0) {
          if config.serviceName == "" || config.serviceName == serviceName {
            var rule := RoutingRule(config.serverType, config.serviceName, config.strategy, endpoints,
                                    config.hashKey, world);
            ApplyOne(old(router.rules), Matched(order[..i], inp, world, endpoints), rule);
            router.UpdateRule(rule);
            matched := true;
          }
        }
      }
      assert order[..|order|] == order;
    }

    method MergeConsulEndpoints(services: map<int, seq<ServiceEntry>>, o: Order)
      requires ValidOrder(o, Input(services, routingConfigs, serviceName))
      modifies router`rules
      ensures router.rules == Merged(old(router.rules), Input(services, routingConfigs, serviceName), o)
    {
      hide Matched, EndpointsOf, Apply, KeyOf, Exact;
      ghost var inp := Input(services, routingConfigs, serviceName);
      ghost var was := router.rules;
      ApplyNone(was);
      for i := 0 to |o.worlds|
        invariant router.rules == Apply(was, AllUpdates(o.worlds[..i], o.configs, inp))
      {
        ghost var done := AllUpdates(o.worlds[..i], o.configs, inp);
        assert o.worlds[..i + 1][..i] == o.worlds[..i];
        var world := o.worlds[i];
        assert world in o.worlds && Covers(o.configs, inp, world);
        var entries := services[world];
        if |entries| == 0 {
          assert done + [] == done;
          continue;
        }
        var endpoints := EndpointsOf(entries);
        MatchedSame(o.configs[world], inp, world, endpoints);
        ghost var rules := Matched(o.configs[world], inp, world, endpoints);
        var matched := MergeWorld(world, endpoints, o.configs[world]);
        ApplyMore(was, done, rules);
        if !matched {
          assert done + [] == done;
          var rule := RoutingRule(GAME_SERVER_TYPE, serviceName, RoundRobin, endpoints, "", world);
          ApplyOne(was, done, rule);
          router.UpdateRule(rule);
        }
      }
      assert o.worlds[..|o.worlds|] == o.worlds;
    }
  }

  lemma MatchedNone(inp: Input, world: int, endpoints: seq<string>)
    ensures Matched([], inp, world, endpoints) == []
  {
  }

  lemma MatchedNext(order: seq<string>, i: nat, inp: Input, world: int, endpoints: seq<string>)
    requires i < |order|
    ensures Matched(order[..i + 1], inp, world, endpoints) ==
      if order[i] in inp.configs && Matches(inp.configs[order[i]], world, inp.service)
      then Matched(order[..i], inp, world, endpoints) + [Built(inp.configs[order[i]], world, endpoints)]
      else Matched(order[..i], inp, world, endpoints)
  {
    hide Matches, Built;
    assert order[..i + 1][..i] == order[..i];
  }

  lemma ApplyNone(rules: Rules)
    ensures Apply(rules, []) == rules
  {
  }

  lemma ApplyOne(rules: Rules, updates: seq<RoutingRule>, rule: RoutingRule)
    ensures Apply(rules, updates + [rule]) == Apply(rules, updates)[KeyOf(rule) := rule]
  {
    assert (updates + [rule])[..|updates|] == updates;
  }

  lemma {:induction false} ApplyMore(rules: Rules, a: seq<RoutingRule>, b: seq<RoutingRule>)
    ensures Apply(rules, a + b) == Apply(Apply(rules, a), b)
    decreases |b|
  {
    if b == [] {
      assert a + b == a;
    } else {
      var n := |b| - 1;
      assert a + b == (a + b[..n]) + [b[n]];
      ApplyOne(rules, a + b[..n], b[n]);
      ApplyMore(rules, a, b[..n]);
    }
  }

  lemma {:induction false} MatchedSame(order: seq<string>, inp: Input, world: int, endpoints: seq<string>)
    ensures Matched(order, inp, world, endpoints)
       == Matched(order, Input(map[], inp.configs, inp.service), world, endpoints)
    decreases |order|
  {
    if order != [] {
      MatchedSame(order[..|order| - 1], inp, world, endpoints);
    }
  }

  // ---------------------------------------------------------------------------
  // The configurations

  /** The key of a configuration; unlike a rule's, it keeps a negative world. */
  function ConfigKey(config: RoutingRule): string {
    Decimal(config.serverType) + ":" + Decimal(config.worldID)
  }

  /** Configurations share a key exactly if they are for the same server type and world. */
  lemma ConfigKeyInjective(a: RoutingRule, b: RoutingRule)
    ensures ConfigKey(a) == ConfigKey(b) <==> a.serverType == b.serverType && a.worldID == b.worldID
  {
    hide Decimal;
    if ConfigKey(a) == ConfigKey(b) {
      ColonSplits(Decimal(a.serverType), Decimal(a.worldID), Decimal(b.serverType), Decimal(b.worldID));
      NumberOfDecimal(a.serverType);
      NumberOfDecimal(b.serverType);
      NumberOfDecimal(a.worldID);
      NumberOfDecimal(b.worldID);
    }
  }

  predicate WellKeyed(configs: Rules) {
    forall k :: k in configs ==> k == ConfigKey(configs[k])
  }

  function StoredAll(configs: Rules, rules: seq<RoutingRule>): Rules {
    if rules == [] then configs
    else
      var config := rules[|rules| - 1].(endpoints := []);
      StoredAll(configs, rules[..|rules| - 1])[ConfigKey(config) := config]
  }

  /** Of the rules with a key, the last is stored, without endpoints; other keys are as they were. */
  lemma {:induction false} StoredLast(configs: Rules, rules: seq<RoutingRule>, k: string)
    ensures var stored := StoredAll(configs, rules);
      || (exists i ::
            && 0 <= i < |rules| && ConfigKey(rules[i]) == k && k in stored
            && stored[k] == RoutingRule(rules[i].serverType, rules[i].serviceName, rules[i].strategy, [],
                                        rules[i].hashKey, rules[i].worldID)
            && forall j :: i < j < |rules| ==> ConfigKey(rules[j]) != k)
      || ((forall i :: 0 <= i < |rules| ==> ConfigKey(rules[i]) != k)
          && (k in stored <==> k in configs) && (k in configs ==> stored[k] == configs[k]))
    decreases |rules|
  {
    hide ConfigKey;
    if rules != [] {
      var n := |rules| - 1;
      SameKey(rules[n]);
      StoredLast(configs, rules[..n], k);
    }
  }

  lemma SameKey(rule: RoutingRule)
    ensures ConfigKey(rule.(endpoints := [])) == ConfigKey(rule)
  {
  }

  // ---------------------------------------------------------------------------
  // What the table can hold afterwards

  /** The rule for `world` made from configuration `k`. */
  predicate FromConfig(inp: Input, world: int, k: string, rule: RoutingRule) {
    && world in inp.services && inp.services[world] != []
    && k in inp.configs && Matches(inp.configs[k], world, inp.service)
    && rule == Built(inp.configs[k], world, EndpointsOf(inp.services[world]))
  }

  /** The default rule, for a world that no configuration matches. */
  predicate FromDefault(inp: Input, world: int, rule: RoutingRule) {
    && world in inp.services && inp.services[world] != []
    && (forall k :: k in inp.configs ==> !Matches(inp.configs[k], world, inp.service))
    && rule == DefaultRule(world, inp.service, EndpointsOf(inp.services[world]))
  }

  ghost predicate CandidateOf(inp: Input, world: int, rule: RoutingRule) {
    FromDefault(inp, world, rule) || exists k :: FromConfig(inp, world, k, rule)
  }

  ghost predicate Candidate(inp: Input, rule: RoutingRule) {
    exists world :: CandidateOf(inp, world, rule)
  }

  /**
   Which rules a listed world can get: one for each configuration of that world, or of
   all worlds if the world is positive, whose service name is empty or the one looked
   for; or the default rule for game servers if there is no such configuration.
   */
  lemma CandidateExactly(inp: Input, w: int, rule: RoutingRule)
    requires w in inp.services && inp.services[w] != []
    ensures var endpoints := EndpointsOf(inp.services[w]);
      CandidateOf(inp, w, rule) <==>
      || (exists k ::
            && k in inp.configs
            && (inp.configs[k].worldID == w || (inp.configs[k].worldID == 0 && w > 0))
            && (inp.configs[k].serviceName == "" || inp.configs[k].serviceName == inp.service)
            && rule == RoutingRule(inp.configs[k].serverType, inp.configs[k].serviceName, inp.configs[k].strategy,
                                   endpoints, inp.configs[k].hashKey, w))
      || ((forall k :: k in inp.configs ==>
             || (inp.configs[k].worldID != w && (inp.configs[k].worldID != 0 || w <= 0))
             || (inp.configs[k].serviceName != "" && inp.configs[k].serviceName != inp.service))
          && rule == RoutingRule(200, inp.service, RoundRobin, endpoints, "", w))
  {
    hide EndpointsOf;
    if k :| FromConfig(inp, w, k, rule) {
      assert k in inp.configs;
    }
    if k :|
      && k in inp.configs
      && (inp.configs[k].worldID == w || (inp.configs[k].worldID == 0 && w > 0))
      && (inp.configs[k].serviceName == "" || inp.configs[k].serviceName == inp.service)
      && rule == RoutingRule(inp.configs[k].serverType, inp.configs[k].serviceName, inp.configs[k].strategy,
                             EndpointsOf(inp.services[w]), inp.configs[k].hashKey, w)
    {
      assert FromConfig(inp, w, k, rule);
    }
  }

  lemma {:induction false} MatchedMembers(order: seq<string>, inp: Input, world: int, rule: RoutingRule)
    requires world in inp.services && inp.services[world] != []
    ensures rule in Matched(order, inp, world, EndpointsOf(inp.services[world]))
       <==> exists k :: k in order && FromConfig(inp, world, k, rule)
    decreases |order|
  {
    hide EndpointsOf, Matches, Built;
    if order != [] {
      var n := |order| - 1;
      MatchedMembers(order[..n], inp, world, rule);
      assert order == order[..n] + [order[n]];
      if FromConfig(inp, world, order[n], rule) {
        assert order[n] in order;
      } else {
        if k :| k in order && FromConfig(inp, world, k, rule) {
          assert k in order[..n];
        }
        if k :| k in order[..n] && FromConfig(inp, world, k, rule) {
          assert k in order;
        }
      }
    }
  }

  lemma {:induction false} WorldMembers(order: seq<string>, inp: Input, world: int, rule: RoutingRule)
    requires world in inp.services && Enumerates(order, inp.configs.Keys)
    ensures rule in WorldUpdates(order, inp, world) <==> CandidateOf(inp, world, rule)
  {
    hide EndpointsOf, Matches, Built, DefaultRule, Matched;
    if inp.services[world] != [] {
      MatchedMembers(order, inp, world, rule);
      var endpoints := EndpointsOf(inp.services[world]);
      var rules := Matched(order, inp, world, endpoints);
      if rules == [] {
        forall k | k in inp.configs ensures !Matches(inp.configs[k], world, inp.service) {
          NoneMatched(order, inp, world, k);
        }
      } else {
        MatchedMembers(order, inp, world, rules[0]);
      }
    }
  }

  lemma NoneMatched(order: seq<string>, inp: Input, world: int, k: string)
    requires world in inp.services && inp.services[world] != []
      && k in inp.configs && Enumerates(order, inp.configs.Keys)
    requires Matched(order, inp, world, EndpointsOf(inp.services[world])) == []
    ensures !Matches(inp.configs[k], world, inp.service)
  {
    hide EndpointsOf, Matches, Matched;
    var rule := Built(inp.configs[k], world, EndpointsOf(inp.services[world]));
    MatchedMembers(order, inp, world, rule);
    assert k in order;
    assert Matches(inp.configs[k], world, inp.service) ==> FromConfig(inp, world, k, rule);
  }

  predicate Covers(configs: map<int, seq<string>>, inp: Input, world: int) {
    world in inp.services && world in configs && Enumerates(configs[world], inp.configs.Keys)
  }

  /** The updates are the candidates, whatever the orders. */
  lemma {:induction false} UpdatesFrom(worlds: seq<int>, configs: map<int, seq<string>>, inp: Input, rule: RoutingRule)
    requires forall w :: w in worlds ==> Covers(configs, inp, w)
    ensures rule in AllUpdates(worlds, configs, inp) <==> exists w :: w in worlds && CandidateOf(inp, w, rule)
    decreases |worlds|
  {
    hide WorldUpdates, CandidateOf, Enumerates;
    if worlds != [] {
      var n := |worlds| - 1;
      UpdatesFrom(worlds[..n], configs, inp, rule);
      assert worlds[n] in worlds;
      assert Covers(configs, inp, worlds[n]);
      WorldMembers(configs[worlds[n]], inp, worlds[n], rule);
      forall w ensures w in worlds <==> w in worlds[..n] || w == worlds[n] {
        assert worlds == worlds[..n] + [worlds[n]];
      }
    }
  }

  lemma {:induction false} UpdatesAre(o: Order, inp: Input, rule: RoutingRule)
    requires ValidOrder(o, inp)
    ensures rule in AllUpdates(o.worlds, o.configs, inp) <==> Candidate(inp, rule)
  {
    hide AllUpdates;
    UpdatesFrom(o.worlds, o.configs, inp, rule);
    if w :| CandidateOf(inp, w, rule) {
      assert w in inp.services;
    }
  }

  /** A key's last update wins; without one, its rule stays. */
  lemma {:induction false} ApplyAt(rules: Rules, updates: seq<RoutingRule>, key: string)
    ensures (exists u ::
               && u in updates && KeyOf(u) == key
               && key in Apply(rules, updates) && Apply(rules, updates)[key] == u)
      || ((forall u :: u in updates ==> KeyOf(u) != key)
          && (key in Apply(rules, updates) <==> key in rules)
          && (key in rules ==> Apply(rules, updates)[key] == rules[key]))
    decreases |updates|
  {
    hide KeyOf;
    if updates != [] {
      var n := |updates| - 1;
      ApplyAt(rules, updates[..n], key);
      assert updates == updates[..n] + [updates[n]];
      assert updates[n] in updates;
      if KeyOf(updates[n]) != key {
        if u :|
          && u in updates[..n] && KeyOf(u) == key
          && key in Apply(rules, updates[..n]) && Apply(rules, updates[..n])[key] == u {
          assert u in updates;
        }
      }
    }
  }

  /**
   After a merge, in whatever orders: a key that some world and configuration make a
   rule for holds such a rule, and every other key is as it was.
   */
  lemma {:induction false} MergedAt(rules: Rules, inp: Input, o: Order, key: string)
    requires ValidOrder(o, inp)
    ensures (exists u :: Candidate(inp, u) && KeyOf(u) == key)
      ==> key in Merged(rules, inp, o)
          && Candidate(inp, Merged(rules, inp, o)[key]) && KeyOf(Merged(rules, inp, o)[key]) == key
    ensures !(exists u :: Candidate(inp, u) && KeyOf(u) == key)
      ==> (key in Merged(rules, inp, o) <==> key in rules)
          && (key in rules ==> Merged(rules, inp, o)[key] == rules[key])
  {
    hide Candidate, KeyOf, ValidOrder;
    var updates := AllUpdates(o.worlds, o.configs, inp);
    ApplyAt(rules, updates, key);
    forall u ensures u in updates <==> Candidate(inp, u) {
      UpdatesAre(o, inp, u);
    }
  }

  // ---------------------------------------------------------------------------
  // When the orders do not matter

  /** No key can get two different rules. */
  ghost predicate Unambiguous(inp: Input) {
    forall a, b :: Candidate(inp, a) && Candidate(inp, b) && KeyOf(a) == KeyOf(b) ==> a == b
  }

  /** Then every order gives the same table. */
  lemma {:induction false} UnambiguousFixed(rules: Rules, inp: Input, o: Order, o': Order)
    requires ValidOrder(o, inp) && ValidOrder(o', inp) && Unambiguous(inp)
    ensures Merged(rules, inp, o) == Merged(rules, inp, o')
  {
    hide Candidate, KeyOf, ValidOrder, Merged;
    forall key: string
      ensures key in Merged(rules, inp, o) <==> key in Merged(rules, inp, o')
      ensures key in Merged(rules, inp, o) ==> Merged(rules, inp, o)[key] == Merged(rules, inp, o')[key]
    {
      MergedAt(rules, inp, o, key);
      MergedAt(rules, inp, o', key);
    }
  }

  /** A set can be enumerated so that a given element comes last. */
  lemma {:induction false} SomeOrder<T>(elements: set<T>) returns (order: seq<T>)
    ensures Enumerates(order, elements)
    decreases |elements|
  {
    if elements == {} {
      order := [];
    } else {
      var x :| x in elements;
      order := EndingWith(elements, x);
    }
  }

  lemma {:induction false} EndingWith<T>(elements: set<T>, x: T) returns (order: seq<T>)
    requires x in elements
    ensures Enumerates(order, elements) && |order| > 0 && order[|order| - 1] == x
    decreases |elements|, 0
  {
    var rest := SomeOrder(elements - {x});
    order := rest + [x];
  }

  ghost predicate EndsWith(updates: seq<RoutingRule>, rule: RoutingRule) {
    |updates| > 0 && updates[|updates| - 1] == rule
  }

  lemma ConfigLast(order: seq<string>, inp: Input, world: int, k: string, rule: RoutingRule)
    requires FromConfig(inp, world, k, rule) && |order| > 0 && order[|order| - 1] == k
    ensures EndsWith(WorldUpdates(order, inp, world), rule)
  {
  }

  lemma DefaultLast(order: seq<string>, inp: Input, world: int, rule: RoutingRule)
    requires FromDefault(inp, world, rule) && Enumerates(order, inp.configs.Keys)
    ensures EndsWith(WorldUpdates(order, inp, world), rule)
  {
    hide Matched, EndpointsOf;
    var rules := Matched(order, inp, world, EndpointsOf(inp.services[world]));
    if rules != [] {
      MatchedMembers(order, inp, world, rules[0]);
    }
  }

  lemma WorldLast(worlds: seq<int>, configs: map<int, seq<string>>, inp: Input, world: int, rule: RoutingRule)
    requires |worlds| > 0 && worlds[|worlds| - 1] == world && world in configs && world in inp.services
    requires EndsWith(WorldUpdates(configs[world], inp, world), rule)
    ensures EndsWith(AllUpdates(worlds, configs, inp), rule)
  {
    hide WorldUpdates;
  }

  lemma LastWins(rules: Rules, updates: seq<RoutingRule>, rule: RoutingRule)
    requires EndsWith(updates, rule)
    ensures KeyOf(rule) in Apply(rules, updates) && Apply(rules, updates)[KeyOf(rule)] == rule
  {
    hide KeyOf;
  }

  /** An order of the configurations that puts `rule` last for its world. */
  lemma {:induction false} ConfigOrder(inp: Input, world: int, rule: RoutingRule) returns (order: seq<string>)
    requires CandidateOf(inp, world, rule)
    ensures world in inp.services && Enumerates(order, inp.configs.Keys)
      && EndsWith(WorldUpdates(order, inp, world), rule)
  {
    hide Enumerates, EndsWith, WorldUpdates;
    if FromDefault(inp, world, rule) {
      order := SomeOrder(inp.configs.Keys);
      DefaultLast(order, inp, world, rule);
    } else {
      var k :| FromConfig(inp, world, k, rule);
      order := EndingWith(inp.configs.Keys, k);
      ConfigLast(order, inp, world, k, rule);
    }
  }

  /** Every candidate gets into the table in some order. */
  lemma {:induction false} CandidateWins(rules: Rules, inp: Input, rule: RoutingRule) returns (o: Order)
    requires Candidate(inp, rule)
    ensures ValidOrder(o, inp) && KeyOf(rule) in Merged(rules, inp, o) && Merged(rules, inp, o)[KeyOf(rule)] == rule
  {
    hide Enumerates, EndsWith, WorldUpdates, AllUpdates, Apply, KeyOf, CandidateOf;
    var world :| CandidateOf(inp, world, rule);
    var order := ConfigOrder(inp, world, rule);
    var worlds := EndingWith(inp.services.Keys, world);
    var configs := map w | w in inp.services :: order;
    o := Order(worlds, configs);
    WorldLast(worlds, configs, inp, world, rule);
    LastWins(rules, AllUpdates(worlds, configs, inp), rule);
  }

  /** Otherwise, two orders give different tables. */
  lemma {:induction false} AmbiguousVaries(rules: Rules, inp: Input) returns (o: Order, o': Order)
    requires !Unambiguous(inp)
    ensures ValidOrder(o, inp) && ValidOrder(o', inp) && Merged(rules, inp, o) != Merged(rules, inp, o')
  {
    hide Candidate, ValidOrder, Merged, KeyOf;
    var a, b :| Candidate(inp, a) && Candidate(inp, b) && KeyOf(a) == KeyOf(b) && a != b;
    o := CandidateWins(rules, inp, a);
    o' := CandidateWins(rules, inp, b);
  }

  /**
   The orders do not matter exactly if no server type has, for a listed world, a
   configuration of that world and a wildcard one that differ in more than the world.
   */
  ghost predicate Conflict(inp: Input) {
    exists world, k, m :: ConflictAt(inp, world, k, m)
  }

  predicate ConflictAt(inp: Input, world: int, k: string, m: string) {
    && world > 0 && world in inp.services && inp.services[world] != [] && k in inp.configs && m in inp.configs
    && Matches(inp.configs[k], world, inp.service) && Matches(inp.configs[m], world, inp.service)
    && inp.configs[k].serverType == inp.configs[m].serverType
    && inp.configs[k].worldID == world && inp.configs[m].worldID == 0
    && (inp.configs[k].serviceName, inp.configs[k].strategy, inp.configs[k].hashKey)
       != (inp.configs[m].serviceName, inp.configs[m].strategy, inp.configs[m].hashKey)
  }

  predicate NonNegativeWorlds(inp: Input) {
    forall w :: w in inp.services ==> w >= 0
  }

  lemma {:induction false} ConflictAmbiguous(inp: Input)
    requires Conflict(inp)
    ensures !Unambiguous(inp)
  {
    hide EndpointsOf;
    var world, k, m :| ConflictAt(inp, world, k, m);
    var endpoints := EndpointsOf(inp.services[world]);
    var a, b := Built(inp.configs[k], world, endpoints), Built(inp.configs[m], world, endpoints);
    assert FromConfig(inp, world, k, a) && FromConfig(inp, world, m, b);
    assert CandidateOf(inp, world, a) && CandidateOf(inp, world, b);
    assert Candidate(inp, a) && Candidate(inp, b) && KeyOf(a) == KeyOf(b) && a != b;
  }

  /** A candidate is for a listed world, with that world's endpoints. */
  lemma CandidateShape(inp: Input, world: int, rule: RoutingRule)
    requires CandidateOf(inp, world, rule)
    ensures world in inp.services && inp.services[world] != []
    ensures rule.worldID == world && rule.endpoints == EndpointsOf(inp.services[world])
  {
  }

  /** Two different configurations of one server type that match a world are a conflict, or build the same rule. */
  lemma SameTypeMatches(inp: Input, world: int, k: string, m: string, a: RoutingRule, b: RoutingRule)
    requires WellKeyed(inp.configs) && !Conflict(inp) && world >= 0
    requires FromConfig(inp, world, k, a) && FromConfig(inp, world, m, b) && a.serverType == b.serverType
    ensures a == b
  {
    hide EndpointsOf, Decimal;
    var c, d := inp.configs[k], inp.configs[m];
    assert !ConflictAt(inp, world, k, m) && !ConflictAt(inp, world, m, k);
    if c.worldID == d.worldID {
      assert ConfigKey(c) == ConfigKey(d);
      assert k == m;
    }
  }

  lemma {:induction false} NoConflictUnambiguous(inp: Input)
    requires WellKeyed(inp.configs) && NonNegativeWorlds(inp) && !Conflict(inp)
    ensures Unambiguous(inp)
  {
    hide FromConfig, FromDefault, WellKeyed, Conflict;
    forall a, b | Candidate(inp, a) && Candidate(inp, b) && KeyOf(a) == KeyOf(b) ensures a == b {
      SameKeySame(inp, a, b);
    }
  }

  lemma {:induction false} SameKeySame(inp: Input, a: RoutingRule, b: RoutingRule)
    requires WellKeyed(inp.configs) && NonNegativeWorlds(inp) && !Conflict(inp)
    requires Candidate(inp, a) && Candidate(inp, b) && KeyOf(a) == KeyOf(b)
    ensures a == b
  {
    hide WellKeyed, Conflict, MakeRuleKey, EndpointsOf, Matches;
    var v, w :| CandidateOf(inp, v, a) && CandidateOf(inp, w, b);
    CandidateShape(inp, v, a);
    CandidateShape(inp, w, b);
    KeyInjective(a.serverType, a.worldID, b.serverType, b.worldID);
    assert v == w;
    if !FromDefault(inp, v, a) && !FromDefault(inp, v, b) {
      var k :| FromConfig(inp, v, k, a);
      var m :| FromConfig(inp, v, m, b);
      SameTypeMatches(inp, v, k, m, a, b);
    }
  }

  /** With worlds that are not negative, conflicts are the only reason for ambiguity. */
  lemma {:induction false} OneTable(inp: Input)
    requires WellKeyed(inp.configs) && NonNegativeWorlds(inp)
    ensures Unambiguous(inp) <==> !Conflict(inp)
  {
    hide Unambiguous, Conflict;
    if Conflict(inp) {
      ConflictAmbiguous(inp);
    } else {
      NoConflictUnambiguous(inp);
    }
  }

  // ---------------------------------------------------------------------------
  // Each world's own endpoints

  /** A merge makes a rule for this server type and world. */
  ghost predicate Touched(inp: Input, serverType: int, world: int) {
    exists rule :: CandidateOf(inp, world, rule) && rule.serverType == serverType
  }

  /**
   With worlds that are not negative, in whatever orders: a rule that the merge touches
   has its own world's endpoints, and every other rule - those of a world that is not
   listed, or listed without entries, among them - is as it was.
   */
  lemma {:induction false} MergedRules(rules: Rules, inp: Input, o: Order, serverType: int, world: nat)
    requires ValidOrder(o, inp) && NonNegativeWorlds(inp)
    ensures var r := Exact(Merged(rules, inp, o), serverType, world);
      if Touched(inp, serverType, world)
      then
        && world in inp.services && inp.services[world] != [] && r.Some?
        && CandidateOf(inp, world, r.value) && r.value.serverType == serverType
        && r.value.worldID == world && r.value.endpoints == EndpointsOf(inp.services[world])
      else r == Exact(rules, serverType, world)
    ensures world !in inp.services || inp.services[world] == [] ==> !Touched(inp, serverType, world)
  {
    hide MakeRuleKey, EndpointsOf, Merged, FromConfig, FromDefault;
    var key := MakeRuleKey(serverType, world);
    MergedAt(rules, inp, o, key);
    forall rule | Candidate(inp, rule) && KeyOf(rule) == key
      ensures CandidateOf(inp, world, rule) && rule.serverType == serverType
    {
      KeyOfCandidate(inp, rule, serverType, world);
    }
    forall rule | CandidateOf(inp, world, rule)
      ensures world in inp.services && inp.services[world] != []
        && rule.worldID == world && rule.endpoints == EndpointsOf(inp.services[world])
    {
      CandidateShape(inp, world, rule);
    }
    if rule :| CandidateOf(inp, world, rule) && rule.serverType == serverType {
      assert Candidate(inp, rule) && KeyOf(rule) == key;
    }
  }

  lemma {:induction false} KeyOfCandidate(inp: Input, rule: RoutingRule, serverType: int, world: nat)
    requires Candidate(inp, rule) && KeyOf(rule) == MakeRuleKey(serverType, world) && NonNegativeWorlds(inp)
    ensures CandidateOf(inp, world, rule) && rule.serverType == serverType
  {
    hide MakeRuleKey, EndpointsOf;
    var w :| CandidateOf(inp, w, rule);
    CandidateShape(inp, w, rule);
    KeyInjective(rule.serverType, rule.worldID, serverType, world);
  }

  /** A negative world shares the wildcard's key, so it can be ambiguous without any configuration. */
  lemma NegativeWorldAmbiguous(service: string, e: ServiceEntry, f: ServiceEntry)
    ensures var inp := Input(map[0 := [e], -1 := [f]], map[], service);
      !Unambiguous(inp) && !Conflict(inp)
  {
    hide EndpointsOf, Decimal;
    var inp := Input(map[0 := [e], -1 := [f]], map[], service);
    var a := DefaultRule(0, service, EndpointsOf([e]));
    var b := DefaultRule(-1, service, EndpointsOf([f]));
    assert FromDefault(inp, 0, a) && FromDefault(inp, -1, b);
    assert CandidateOf(inp, 0, a) && CandidateOf(inp, -1, b);
    assert KeyOf(a) == KeyOf(b) && a != b;
  }

  /** A world that no configuration matches gets the default rule, whatever the orders. */
  lemma {:induction false} UnmatchedWorld(rules: Rules, inp: Input, o: Order, world: nat)
    requires ValidOrder(o, inp) && NonNegativeWorlds(inp) && world in inp.services && inp.services[world] != []
    requires forall k :: k in inp.configs ==> !Matches(inp.configs[k], world, inp.service)
    ensures Exact(Merged(rules, inp, o), 200, world)
         == Some(RoutingRule(200, inp.service, RoundRobin, EndpointsOf(inp.services[world]), "", world))
  {
    hide EndpointsOf, Merged, Exact, ValidOrder;
    var rule := DefaultRule(world, inp.service, EndpointsOf(inp.services[world]));
    assert FromDefault(inp, world, rule);
    assert CandidateOf(inp, world, rule) && rule.serverType == 200;
    MergedRules(rules, inp, o, 200, world);
  }
}
