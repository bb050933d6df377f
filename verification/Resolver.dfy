// The dependency resolver of the Go framework (app/resolver.go).
module Resolver {
  import opened Domain

  // A Go type, compared for identity.
  type Type = nat

  datatype Provider = Provider(fn: nat, deps: seq<Type>, makes: Type)

  // A registered value, as `analyze` sees it: not a constructor it can use, or one.
  datatype Service = Unusable | Constructor(provider: Provider)

  // What a constructor returned for its arguments, and whatever a built-in holds.
  datatype Value = Given(n: nat) | Built(fn: nat, args: seq<Value>)

  datatype Error =
    | NotAConstructor(service: nat)
    | FrameworkProvides(makes: Type)
    | NoConstructor(fn: nat, dep: Type)
    | Cycle(stuck: seq<Type>)

  // `order` lists the surviving constructors, by their place among them, as they were called.
  datatype Resolution = Refused(error: Error) | Resolved(singletons: map<Type, Value>, order: seq<nat>)

  // --- Last registered wins -----------------------------------------------------------------

  predicate Acceptable(service: Service, builtins: set<Type>) {
    service.Constructor? && service.provider.makes !in builtins
  }

  function Objection(services: seq<Service>, k: nat): Error
    requires k < |services|
  {
    if services[k].Unusable? then NotAConstructor(k) else FrameworkProvides(services[k].provider.makes)
  }

  predicate Rivals(x: Service, y: Service) {
    x.Constructor? && y.Constructor? && x.provider.makes == y.provider.makes
  }

  predicate Overridden(services: seq<Service>, k: nat)
    requires k < |services|
  {
    exists l | k < l < |services| :: Rivals(services[k], services[l])
  }

  function Slot(services: seq<Service>, k: nat): Option<Provider>
    requires k < |services|
  {
    if services[k].Unusable? || Overridden(services, k) then None else Some(services[k].provider)
  }

  function Compact(slots: seq<Option<Provider>>): (r: seq<Provider>)
    ensures forall p | p in r :: Some(p) in slots
    ensures forall k | 0 <= k < |slots| && slots[k].Some? :: slots[k].value in r
  {
    if slots == [] then []
    else (if slots[0].Some? then [slots[0].value] else []) + Compact(slots[1..])
  }

  // The constructors that no later one overrides, in the order they were registered.
  function Survivors(services: seq<Service>): seq<Provider> {
    Compact(seq(|services|, k requires 0 <= k < |services| => Slot(services, k)))
  }

  ghost predicate DistinctProvides(active: seq<Provider>) {
    forall i, j | 0 <= i < j < |active| :: active[i].makes != active[j].makes
  }

  lemma {:induction false} CompactDistinct(slots: seq<Option<Provider>>)
    requires forall a, b | 0 <= a < b < |slots| && slots[a].Some? && slots[b].Some? ::
      slots[a].value.makes != slots[b].value.makes
    ensures DistinctProvides(Compact(slots))
  {
    if slots != [] {
      CompactDistinct(slots[1..]);
      var rest := Compact(slots[1..]);
      if slots[0].Some? {
        forall j | 0 <= j < |rest| ensures rest[j].makes != slots[0].value.makes {
          assert rest[j] in rest;
          var b :| 0 <= b < |slots[1..]| && slots[1..][b] == Some(rest[j]);
          assert slots[b + 1] == Some(rest[j]);
        }
      }
    }
  }

  // Each provided type has exactly one surviving constructor, the last one registered for it.
  lemma SurvivorsExact(services: seq<Service>, p: Provider)
    ensures DistinctProvides(Survivors(services))
    ensures p in Survivors(services) <==>
      exists k :: 0 <= k < |services| && services[k] == Constructor(p) && !Overridden(services, k)
  {
    var slots := seq(|services|, k requires 0 <= k < |services| => Slot(services, k));
    assert forall a, b | 0 <= a < b < |services| && Rivals(services[a], services[b]) :: Overridden(services, a);
    forall a, b | 0 <= a < b < |slots| && slots[a].Some? && slots[b].Some?
      ensures slots[a].value.makes != slots[b].value.makes
    {
    }
    CompactDistinct(slots);
    if p in Survivors(services) {
      var k :| 0 <= k < |slots| && slots[k] == Some(p);
      assert services[k] == Constructor(p);
    }
    if k :| 0 <= k < |services| && services[k] == Constructor(p) && !Overridden(services, k) {
      assert slots[k] == Some(p);
    }
  }

  // A type with a constructor keeps one.
  lemma {:induction false} SomeSurvives(services: seq<Service>, k: nat)
    requires k < |services| && services[k].Constructor?
    ensures exists p :: p in Survivors(services) && p.makes == services[k].provider.makes
    decreases |services| - k
  {
    if Overridden(services, k) {
      var l :| k < l < |services| && Rivals(services[k], services[l]);
      SomeSurvives(services, l);
    } else {
      SurvivorsExact(services, services[k].provider);
    }
  }

  // What the first loop has made of the services seen: a slot each, emptied once it is overridden,
  // and the slot that holds each type's last constructor.
  ghost predicate SlotsRight(seen: seq<Service>, slots: seq<Option<Provider>>, index: map<Type, nat>) {
    && |slots| == |seen|
    && (forall j | 0 <= j < |seen| :: seen[j].Constructor? && seen[j].provider.makes in index)
    && (forall j | 0 <= j < |seen| :: slots[j] == Slot(seen, j))
    && (forall t | t in index ::
          index[t] < |seen| && seen[index[t]].provider.makes == t && !Overridden(seen, index[t]))
  }

  function Fill(slots: seq<Option<Provider>>, index: map<Type, nat>, p: Provider): seq<Option<Provider>>
    requires p.makes in index ==> index[p.makes] < |slots|
  {
    (if p.makes in index then slots[index[p.makes] := None] else slots) + [Some(p)]
  }

  lemma OverriddenNext(seen: seq<Service>, p: Provider, j: nat)
    requires j < |seen|
    ensures Overridden(seen + [Constructor(p)], j) <==> Overridden(seen, j) || Rivals(seen[j], Constructor(p))
  {
    var next := seen + [Constructor(p)];
    if Overridden(seen, j) {
      var l :| j < l < |seen| && Rivals(seen[j], seen[l]);
      assert Rivals(next[j], next[l]);
    }
    if Rivals(seen[j], Constructor(p)) {
      assert Rivals(next[j], next[|seen|]);
    }
  }

  // Only the last of a type's constructors is not overridden, and the index knows where it is.
  lemma {:induction false} LastIsIndexed(seen: seq<Service>, slots: seq<Option<Provider>>, index: map<Type, nat>,
                                         j: nat)
    requires SlotsRight(seen, slots, index) && j < |seen|
    ensures !Overridden(seen, j) <==> index[seen[j].provider.makes] == j
  {
    var l := index[seen[j].provider.makes];
    if l > j {
      assert Rivals(seen[j], seen[l]);
    } else if l < j {
      assert Rivals(seen[l], seen[j]);
    }
  }

  lemma SlotsNext(seen: seq<Service>, slots: seq<Option<Provider>>, index: map<Type, nat>, p: Provider)
    requires SlotsRight(seen, slots, index)
    ensures SlotsRight(seen + [Constructor(p)], Fill(slots, index, p), index[p.makes := |seen|])
  {
    var next, filled, moved := seen + [Constructor(p)], Fill(slots, index, p), index[p.makes := |seen|];
    forall j | 0 <= j < |seen| ensures filled[j] == Slot(next, j) {
      OverriddenNext(seen, p, j);
      LastIsIndexed(seen, slots, index, j);
    }
    forall t | t in moved
      ensures moved[t] < |next| && next[moved[t]].provider.makes == t && !Overridden(next, moved[t])
    {
      if t != p.makes {
        OverriddenNext(seen, p, index[t]);
      }
    }
  }

  ghost predicate Indexes(active: seq<Provider>, index: map<Type, nat>) {
    && (forall i | 0 <= i < |active| :: active[i].makes in index && index[active[i].makes] == i)
    && (forall t | t in index :: index[t] < |active| && active[index[t]].makes == t)
  }

  // The first loops of `resolve`: the registrations looked at in turn, and the survivors gathered.
  method Register(services: seq<Service>, builtins: set<Type>)
    returns (error: Option<Error>, active: seq<Provider>, index: map<Type, nat>)
    ensures error.None? <==> forall k | 0 <= k < |services| :: Acceptable(services[k], builtins)
    ensures error.Some? ==> FirstObjection(services, builtins, error.value)
    ensures error.None? ==> active == Survivors(services) && Indexes(active, index)
  {
    active, index := [], map[];
    var slots: seq<Option<Provider>> := [];
    for k := 0 to |services|
      invariant forall j | 0 <= j < k :: Acceptable(services[j], builtins)
      invariant SlotsRight(services[..k], slots, index)
    {
      if services[k].Unusable? {
        return Some(NotAConstructor(k)), active, index;
      }
      var p := services[k].provider;
      if p.makes in builtins {
        return Some(FrameworkProvides(p.makes)), active, index;
      }
      SlotsNext(services[..k], slots, index, p);
      assert services[..k + 1] == services[..k] + [Constructor(p)];
      if p.makes in index {
        slots := slots[index[p.makes] := None];
      }
      slots := slots + [Some(p)];
      index := index[p.makes := |slots| - 1];
    }
    assert services[..|services|] == services;
    error := None;
    active := Gather(slots);
    assert slots == seq(|services|, k requires 0 <= k < |services| => Slot(services, k));
    SurvivorsIndexed(services, slots, index);
    index := Reindex(active, index);
  }

  ghost predicate FirstObjection(services: seq<Service>, builtins: set<Type>, error: Error) {
    exists k :: 0 <= k < |services| && !Acceptable(services[k], builtins)
      && (forall j | 0 <= j < k :: Acceptable(services[j], builtins))
      && error == Objection(services, k)
  }

  lemma CompactNext(slots: seq<Option<Provider>>, k: nat)
    requires k < |slots|
    ensures Compact(slots[k..])
      == (if slots[k].Some? then [slots[k].value] else []) + Compact(slots[k + 1..])
  {
    assert slots[k..][0] == slots[k] && slots[k..][1..] == slots[k + 1..];
  }

  method Gather(slots: seq<Option<Provider>>) returns (active: seq<Provider>)
    ensures active == Compact(slots)
  {
    active := [];
    for k := 0 to |slots|
      invariant active + Compact(slots[k..]) == Compact(slots)
    {
      CompactNext(slots, k);
      if slots[k].Some? {
        assert active + ([slots[k].value] + Compact(slots[k + 1..]))
            == active + [slots[k].value] + Compact(slots[k + 1..]);
        active := active + [slots[k].value];
      }
    }
  }

  lemma SurvivorsIndexed(services: seq<Service>, slots: seq<Option<Provider>>, index: map<Type, nat>)
    requires SlotsRight(services, slots, index)
    ensures var active := Survivors(services);
      && DistinctProvides(active)
      && (forall i | 0 <= i < |active| :: active[i].makes in index)
      && (forall t | t in index :: exists i :: 0 <= i < |active| && active[i].makes == t)
  {
    var active := Survivors(services);
    forall i | 0 <= i < |active| ensures active[i].makes in index {
      assert active[i] in active;
      SurvivorsExact(services, active[i]);
    }
    SurvivorsExact(services, Provider(0, [], 0));
    forall t | t in index ensures exists i :: 0 <= i < |active| && active[i].makes == t {
      SurvivorsExact(services, services[index[t]].provider);
      var i :| 0 <= i < |active| && active[i] == services[index[t]].provider;
    }
  }

  method Reindex(active: seq<Provider>, slotted: map<Type, nat>) returns (index: map<Type, nat>)
    requires DistinctProvides(active)
    requires forall i | 0 <= i < |active| :: active[i].makes in slotted
    requires forall t | t in slotted :: exists i :: 0 <= i < |active| && active[i].makes == t
    ensures Indexes(active, index)
  {
    index := slotted;
    for i := 0 to |active|
      invariant index.Keys == slotted.Keys
      invariant forall j | 0 <= j < i :: index[active[j].makes] == j
    {
      index := index[active[i].makes := i];
    }
  }

  // --- The graph ----------------------------------------------------------------------------

  function MadeBy(active: seq<Provider>): set<Type> {
    set i | 0 <= i < |active| :: active[i].makes
  }

  predicate Known(deps: seq<Type>, builtins: set<Type>, made: set<Type>) {
    forall k | 0 <= k < |deps| :: deps[k] in builtins || deps[k] in made
  }

  // The constructors a list of dependencies waits for, one entry a dependency.
  function Needs(deps: seq<Type>, builtins: set<Type>, index: map<Type, nat>): (r: seq<nat>)
    requires Known(deps, builtins, index.Keys)
    ensures forall j | j in r :: exists k :: 0 <= k < |deps| && deps[k] !in builtins && index[deps[k]] == j
    ensures forall k | 0 <= k < |deps| && deps[k] !in builtins :: index[deps[k]] in r
    ensures |r| <= |deps|
  {
    if deps == [] then []
    else
      var last := |deps| - 1;
      Needs(deps[..last], builtins, index) + (if deps[last] in builtins then [] else [index[deps[last]]])
  }

  ghost predicate AllKnown(active: seq<Provider>, builtins: set<Type>, made: set<Type>) {
    forall i | 0 <= i < |active| :: Known(active[i].deps, builtins, made)
  }

  // The needs of every constructor of a graph without missing ones.
  ghost function Graph(active: seq<Provider>, builtins: set<Type>, index: map<Type, nat>): (needs: seq<seq<nat>>)
    requires AllKnown(active, builtins, index.Keys)
    ensures |needs| == |active|
    ensures forall i | 0 <= i < |active| :: needs[i] == Needs(active[i].deps, builtins, index)
  {
    seq(|active|, i requires 0 <= i < |active| => Needs(active[i].deps, builtins, index))
  }

  // The first dependency, in order, that nothing provides.
  ghost predicate FirstMissing(active: seq<Provider>, builtins: set<Type>, made: set<Type>, error: Error) {
    exists i :: 0 <= i < |active| && AllKnown(active[..i], builtins, made)
      && FirstUnknown(active[i], builtins, made, error)
  }

  // `dependents`, once the needs of constructor `i` are entered.
  ghost predicate Entered(was: seq<seq<nat>>, now: seq<seq<nat>>, i: nat, needs: seq<nat>) {
    |now| == |was| && forall j | 0 <= j < |now| :: multiset(now[j]) == multiset(was[j])[i := multiset(needs)[j]]
  }

  ghost predicate FirstUnknown(p: Provider, builtins: set<Type>, made: set<Type>, error: Error) {
    exists k :: 0 <= k < |p.deps| && Known(p.deps[..k], builtins, made)
      && p.deps[k] !in builtins && p.deps[k] !in made && error == NoConstructor(p.fn, p.deps[k])
  }

  lemma NeedsNext(deps: seq<Type>, builtins: set<Type>, index: map<Type, nat>, k: nat)
    requires k < |deps| && Known(deps[..k], builtins, index.Keys) && (deps[k] in builtins || deps[k] in index)
    ensures Known(deps[..k + 1], builtins, index.Keys)
    ensures Needs(deps[..k + 1], builtins, index)
      == if deps[k] in builtins then Needs(deps[..k], builtins, index)
         else Needs(deps[..k], builtins, index) + [index[deps[k]]]
  {
    assert deps[..k + 1][..k] == deps[..k] && deps[..k + 1][k] == deps[k];
  }

  lemma EnteredNext(was: seq<seq<nat>>, now: seq<seq<nat>>, i: nat, needs: seq<nat>, j: nat)
    requires Entered(was, now, i, needs) && j < |now|
    ensures Entered(was, now[j := now[j] + [i]], i, needs + [j])
  {
  }

  lemma EnteredNone(was: seq<seq<nat>>, i: nat)
    requires forall j | 0 <= j < |was| :: i !in multiset(was[j])
    ensures Entered(was, was, i, [])
  {
  }

  lemma FirstUnknownAt(p: Provider, builtins: set<Type>, index: map<Type, nat>, k: nat)
    requires k < |p.deps| && Known(p.deps[..k], builtins, index.Keys) && p.deps[k] !in builtins && p.deps[k] !in index
    ensures FirstUnknown(p, builtins, index.Keys, NoConstructor(p.fn, p.deps[k]))
  {
  }

  lemma UnknownFails(deps: seq<Type>, builtins: set<Type>, index: map<Type, nat>, k: nat)
    requires k < |deps| && deps[k] !in builtins && deps[k] !in index
    ensures !Known(deps, builtins, index.Keys)
  {
  }

  // One constructor's dependencies (resolver.go:60-76).
  method Link(i: nat, p: Provider, builtins: set<Type>, index: map<Type, nat>,
    indegree: array<int>, dependents: array<seq<nat>>) returns (missing: Option<Error>)
    requires i < indegree.Length == dependents.Length && indegree[i] == 0
    requires forall j | 0 <= j < dependents.Length :: i !in multiset(dependents[j])
    requires forall t | t in index :: index[t] < dependents.Length
    modifies indegree, dependents
    ensures missing.None? <==> Known(p.deps, builtins, index.Keys)
    ensures missing.Some? ==> FirstUnknown(p, builtins, index.Keys, missing.value)
    ensures missing.None? ==> indegree[..] == old(indegree[..])[i := |Needs(p.deps, builtins, index)|]
    ensures missing.None? ==> Entered(old(dependents[..]), dependents[..], i, Needs(p.deps, builtins, index))
  {
    hide Needs, Entered, FirstUnknown;
    EnteredNone(dependents[..], i);
    for k := 0 to |p.deps|
      invariant Known(p.deps[..k], builtins, index.Keys)
      invariant indegree[..] == old(indegree[..])[i := |Needs(p.deps[..k], builtins, index)|]
      invariant Entered(old(dependents[..]), dependents[..], i, Needs(p.deps[..k], builtins, index))
    {
      var dep := p.deps[k];
      if dep in builtins {
        NeedsNext(p.deps, builtins, index, k);
        continue;
      }
      if dep !in index {
        UnknownFails(p.deps, builtins, index, k);
        FirstUnknownAt(p, builtins, index, k);
        return Some(NoConstructor(p.fn, dep));
      }
      NeedsNext(p.deps, builtins, index, k);
      var j := index[dep];
      EnteredNext(old(dependents[..]), dependents[..], i, Needs(p.deps[..k], builtins, index), j);
      ghost var before := dependents[..];
      indegree[i] := indegree[i] + 1;
      dependents[j] := dependents[j] + [i];
      assert dependents[..] == before[j := before[j] + [i]];
    }
    assert p.deps[..|p.deps|] == p.deps;
    missing := None;
  }

  // The graph's first `n` constructors, entered.
  ghost predicate Linked(needs: seq<seq<nat>>, n: nat, indegree: seq<int>, dependents: seq<seq<nat>>) {
    && n <= |needs| <= |indegree| == |dependents|
    && (forall i | 0 <= i < n :: indegree[i] == |needs[i]|)
    && (forall i | n <= i < |indegree| :: indegree[i] == 0)
    && (forall i, j | 0 <= i < n && 0 <= j < |dependents| :: multiset(dependents[j])[i] == multiset(needs[i])[j])
    && (forall i, j | n <= i && 0 <= j < |dependents| :: multiset(dependents[j])[i] == 0)
  }

  function Roots(needs: seq<seq<nat>>): (r: seq<nat>)
    ensures forall i :: i in r <==> 0 <= i < |needs| && needs[i] == []
  {
    if needs == [] then []
    else
      var last := |needs| - 1;
      Roots(needs[..last]) + (if needs[last] == [] then [last] else [])
  }

  method BuildGraph(active: seq<Provider>, builtins: set<Type>, index: map<Type, nat>)
    returns (missing: Option<Error>, indegree: array<int>, dependents: array<seq<nat>>, ready: seq<nat>)
    requires Indexes(active, index)
    ensures fresh(indegree) && fresh(dependents) && indegree.Length == dependents.Length == |active|
    ensures missing.None? <==> AllKnown(active, builtins, index.Keys)
    ensures missing.Some? ==> FirstMissing(active, builtins, index.Keys, missing.value)
    ensures missing.None? ==> var needs := Graph(active, builtins, index);
      Linked(needs, |active|, indegree[..], dependents[..]) && ready == Roots(needs)
  {
    indegree := new int[|active|](_ => 0);
    dependents := new seq<nat>[|active|](_ => []);
    ready := [];
    for i := 0 to |active|
      invariant indegree.Length == dependents.Length == |active|
      invariant fresh(indegree) && fresh(dependents)
      invariant AllKnown(active[..i], builtins, index.Keys)
      invariant Linked(Graph(active[..i], builtins, index), i, indegree[..], dependents[..])
      invariant ready == Roots(Graph(active[..i], builtins, index))
    {
      ghost var needs, degrees, waiting := Graph(active[..i], builtins, index), indegree[..], dependents[..];
      missing := Link(i, active[i], builtins, index, indegree, dependents);
      if missing.Some? {
        return;
      }
      GraphNext(active, builtins, index, i);
      LinkedNext(needs, i, degrees, waiting, Needs(active[i].deps, builtins, index), indegree[..], dependents[..]);
      if indegree[i] == 0 {
        ready := ready + [i];
      }
    }
    assert active[..|active|] == active;
    missing := None;
  }

  lemma GraphNext(active: seq<Provider>, builtins: set<Type>, index: map<Type, nat>, i: nat)
    requires i < |active| && AllKnown(active[..i], builtins, index.Keys) && Known(active[i].deps, builtins, index.Keys)
    ensures AllKnown(active[..i + 1], builtins, index.Keys)
    ensures var needs := Graph(active[..i], builtins, index);
      var more := Needs(active[i].deps, builtins, index);
      && Graph(active[..i + 1], builtins, index) == needs + [more]
      && Roots(needs + [more]) == Roots(needs) + (if more == [] then [i] else [])
  {
    var needs, more := Graph(active[..i], builtins, index), Needs(active[i].deps, builtins, index);
    assert (needs + [more])[..i] == needs;
  }

  lemma LinkedNext(needs: seq<seq<nat>>, i: nat, degrees: seq<int>, waiting: seq<seq<nat>>, more: seq<nat>,
    degrees': seq<int>, waiting': seq<seq<nat>>)
    requires Linked(needs, i, degrees, waiting) && i == |needs| < |degrees|
    requires degrees' == degrees[i := |more|] && Entered(waiting, waiting', i, more)
    ensures Linked(needs + [more], i + 1, degrees', waiting')
  {
  }

  // --- Building -----------------------------------------------------------------------------

  ghost predicate Distinct(xs: seq<nat>) {
    forall i, j | 0 <= i < j < |xs| :: xs[i] != xs[j]
  }

  // How many of the needs are not built yet.
  function Unmet(needs: seq<nat>, built: seq<nat>): (r: nat)
    ensures r == 0 <==> forall k | 0 <= k < |needs| :: needs[k] in built
  {
    if needs == [] then 0
    else (if needs[0] in built then 0 else 1) + Unmet(needs[1..], built)
  }

  lemma {:induction false} UnmetNext(needs: seq<nat>, built: seq<nat>, j: nat)
    requires j !in built
    ensures Unmet(needs, built + [j]) == Unmet(needs, built) - multiset(needs)[j]
  {
    if needs != [] {
      UnmetNext(needs[1..], built, j);
      assert needs == [needs[0]] + needs[1..];
    }
  }

  lemma {:induction false} UnmetNone(needs: seq<nat>)
    ensures Unmet(needs, []) == |needs|
  {
    if needs != [] {
      UnmetNone(needs[1..]);
    }
  }

  ghost predicate Releasable(freed: seq<nat>, indegree: seq<int>) {
    && (forall k | 0 <= k < |freed| :: freed[k] < |indegree|)
    && (forall d | 0 <= d < |indegree| :: indegree[d] >= multiset(freed)[d])
  }

  // Each of the freed waits for one thing less, as often as it is listed.
  ghost predicate Released(freed: seq<nat>, was: seq<int>, now: seq<int>, ready: seq<nat>, more: seq<nat>) {
    && |now| == |was|
    && (forall d | 0 <= d < |now| :: now[d] == was[d] - multiset(freed)[d])
    && Freed(freed, now, ready, more)
  }

  // The dependents of a constructor just built (resolver.go:106-110).
  method Release(freed: seq<nat>, indegree: array<int>, ready: seq<nat>) returns (more: seq<nat>)
    requires Releasable(freed, indegree[..])
    modifies indegree
    ensures Released(freed, old(indegree[..]), indegree[..], ready, more)
  {
    more := ready;
    FreedNone(indegree[..], ready);
    hide Freed, Distinct;
    for x := 0 to |freed|
      invariant forall d | 0 <= d < indegree.Length :: indegree[d] == old(indegree[d]) - multiset(freed[..x])[d]
      invariant Freed(freed[..x], indegree[..], ready, more)
    {
      var d := freed[x];
      CountNext(freed, x);
      FreedNext(freed[..x], indegree[..], ready, more, d);
      ghost var before := indegree[..];
      indegree[d] := indegree[d] - 1;
      assert indegree[..] == before[d := before[d] - 1];
      if indegree[d] == 0 {
        more := more + [d];
      }
    }
    assert freed[..|freed|] == freed;
  }

  lemma CountNext(freed: seq<nat>, x: nat)
    requires x < |freed|
    ensures freed[..x + 1] == freed[..x] + [freed[x]]
    ensures multiset(freed)[freed[x]] > multiset(freed[..x])[freed[x]]
  {
    assert freed == freed[..x] + [freed[x]] + freed[x + 1..];
  }

  lemma FreedNone(indegree: seq<int>, ready: seq<nat>)
    ensures Freed([], indegree, ready, ready)
  {
  }

  lemma FreedNext(freed: seq<nat>, indegree: seq<int>, ready: seq<nat>, more: seq<nat>, d: nat)
    requires Freed(freed, indegree, ready, more) && d < |indegree| && indegree[d] >= 1
    ensures Freed(freed + [d], indegree[d := indegree[d] - 1], ready, if indegree[d] == 1 then more + [d] else more)
  {
    var more' := if indegree[d] == 1 then more + [d] else more;
    assert more'[|ready|..] == more[|ready|..] + (if indegree[d] == 1 then [d] else []);
  }

  // `more` is `ready` with, once each, the freed ones that wait for nothing any longer.
  ghost predicate Freed(freed: seq<nat>, indegree: seq<int>, ready: seq<nat>, more: seq<nat>) {
    && ready <= more
    && Distinct(more[|ready|..])
    && forall d :: d in more[|ready|..] <==> d in freed && d < |indegree| && indegree[d] == 0
  }

  ghost predicate Mirrors(needs: seq<seq<nat>>, dependents: seq<seq<nat>>) {
    && |dependents| == |needs|
    && (forall i, j | 0 <= i < |needs| && 0 <= j < |needs| :: multiset(dependents[j])[i] == multiset(needs[i])[j])
    && (forall j, k | 0 <= j < |needs| && 0 <= k < |dependents[j]| :: dependents[j][k] < |needs|)
  }

  // Each is called after all it needs.
  ghost predicate Topological(needs: seq<seq<nat>>, order: seq<nat>) {
    forall p | 0 <= p < |order| :: order[p] < |needs|
      && forall k | 0 <= k < |needs[order[p]]| :: needs[order[p]][k] in order[..p]
  }

  ghost predicate Queued(needs: seq<seq<nat>>, order: seq<nat>, ready: seq<nat>, indegree: seq<int>) {
    && |indegree| == |needs|
    && Distinct(order + ready)
    && (forall x | x in order + ready :: x < |needs|)
    && (forall i | 0 <= i < |needs| :: indegree[i] == Unmet(needs[i], order))
    && (forall i | 0 <= i < |needs| :: i in order + ready <==> indegree[i] == 0)
  }

  lemma QueuedDegrees(needs: seq<seq<nat>>, order: seq<nat>, i: nat, indegree: seq<int>, freed: seq<nat>, now: seq<int>)
    requires i !in order && |now| == |indegree| == |needs|
    requires forall d | 0 <= d < |needs| :: indegree[d] == Unmet(needs[d], order)
    requires forall d | 0 <= d < |needs| :: multiset(freed)[d] == multiset(needs[d])[i]
    requires forall d | 0 <= d < |needs| :: now[d] == indegree[d] - multiset(freed)[d]
    ensures forall d | 0 <= d < |needs| :: now[d] == Unmet(needs[d], order + [i])
  {
    forall d | 0 <= d < |needs| ensures now[d] == Unmet(needs[d], order + [i]) {
      UnmetNext(needs[d], order, i);
    }
  }

  // `known` is everything built or ready, `added` what has become ready.
  lemma QueuedMembers(known: seq<nat>, added: seq<nat>, indegree: seq<int>, freed: seq<nat>, now: seq<int>)
    requires |now| == |indegree|
    requires Distinct(known) && forall x | x in known :: x < |indegree|
    requires forall d | 0 <= d < |indegree| :: d in known <==> indegree[d] == 0
    requires forall d | 0 <= d < |indegree| :: now[d] == indegree[d] - multiset(freed)[d] >= 0
    requires Distinct(added) && forall d :: d in added <==> d in freed && d < |now| && now[d] == 0
    ensures forall d | 0 <= d < |now| :: d in known + added <==> now[d] == 0
    ensures Distinct(known + added)
  {
    forall d | d in added ensures d !in known {
      assert multiset(freed)[d] > 0;
    }
    forall d | 0 <= d < |now| ensures d in known + added <==> now[d] == 0 {
      assert d in freed <==> multiset(freed)[d] > 0;
    }
    forall a, b | 0 <= a < b < |known + added| ensures (known + added)[a] != (known + added)[b] {
      if a < |known| <= b {
        assert added[b - |known|] in added && known[a] in known;
      }
    }
  }

  lemma QueuedNext(needs: seq<seq<nat>>, order: seq<nat>, i: nat, rest: seq<nat>, indegree: seq<int>,
    freed: seq<nat>, now: seq<int>, more: seq<nat>)
    requires Queued(needs, order, [i] + rest, indegree) && |now| == |indegree|
    requires forall d | 0 <= d < |needs| :: multiset(freed)[d] == multiset(needs[d])[i]
    requires Released(freed, indegree, now, rest, more)
    ensures Queued(needs, order + [i], more, now)
  {
    var known, added := order + ([i] + rest), more[|rest|..];
    assert (order + [i]) + more == known + added;
    assert i !in order by {
      assert known[|order|] == i;
      assert forall p | 0 <= p < |order| :: known[p] == order[p];
    }
    QueuedDegrees(needs, order, i, indegree, freed, now);
    QueuedMembers(known, added, indegree, freed, now);
  }

  lemma QueuedFirst(needs: seq<seq<nat>>, indegree: seq<int>, dependents: seq<seq<nat>>)
    requires Linked(needs, |needs|, indegree, dependents) && |indegree| == |needs|
    ensures Queued(needs, [], Roots(needs), indegree) && Mirrors(needs, dependents)
  {
    forall i | 0 <= i < |needs| ensures indegree[i] == Unmet(needs[i], []) {
      UnmetNone(needs[i]);
    }
    forall j, k | 0 <= j < |needs| && 0 <= k < |dependents[j]| ensures dependents[j][k] < |needs| {
      assert dependents[j][k] in multiset(dependents[j]);
    }
    RootsDistinct(needs);
    assert [] + Roots(needs) == Roots(needs);
  }

  lemma {:induction false} RootsDistinct(needs: seq<seq<nat>>)
    ensures Distinct(Roots(needs))
  {
    if needs != [] {
      var roots := Roots(needs[..|needs| - 1]);
      RootsDistinct(needs[..|needs| - 1]);
      assert forall k | 0 <= k < |roots| :: roots[k] in roots;
    }
  }

  // What a constructor with all its needs built may be called with.
  lemma NeedsBuilt(needs: seq<seq<nat>>, order: seq<nat>, i: nat, rest: seq<nat>, indegree: seq<int>)
    requires Queued(needs, order, [i] + rest, indegree) && Topological(needs, order)
    ensures i < |needs| && i !in order && (forall k | 0 <= k < |needs[i]| :: needs[i][k] in order)
    ensures Topological(needs, order + [i])
  {
    var known := order + ([i] + rest);
    assert known[|order|] == i;
    assert i in known;
    assert forall p | 0 <= p < |order| :: known[p] == order[p];
    forall p | 0 <= p < |order + [i]|
      ensures var o := order + [i]; o[p] < |needs| && forall k | 0 <= k < |needs[o[p]]| :: needs[o[p]][k] in o[..p]
    {
      assert (order + [i])[..p] == if p < |order| then order[..p] else order;
    }
  }

  // --- The singletons -----------------------------------------------------------------------

  predicate Callable(deps: seq<Type>, singletons: map<Type, Value>) {
    forall k | 0 <= k < |deps| :: deps[k] in singletons
  }

  function Args(deps: seq<Type>, singletons: map<Type, Value>): seq<Value>
    requires Callable(deps, singletons)
  {
    seq(|deps|, k requires 0 <= k < |deps| => singletons[deps[k]])
  }

  // The built-ins as they were, and of each constructor called so far what it returned for its
  // dependencies' singletons.
  ghost predicate Holds(active: seq<Provider>, builtins: map<Type, Value>, order: seq<nat>,
                        singletons: map<Type, Value>) {
    && KeysRight(active, builtins.Keys, order, singletons.Keys)
    && (forall t | t in builtins :: t in singletons && singletons[t] == builtins[t])
    && (forall p | 0 <= p < |order| :: Called(active[order[p]], singletons))
  }

  ghost predicate Called(p: Provider, singletons: map<Type, Value>) {
    && p.makes in singletons
    && Callable(p.deps, singletons)
    && singletons[p.makes] == Built(p.fn, Args(p.deps, singletons))
  }

  lemma CalledStays(p: Provider, singletons: map<Type, Value>, t: Type, value: Value)
    requires Called(p, singletons) && t !in singletons
    ensures Called(p, singletons[t := value])
  {
    assert Args(p.deps, singletons[t := value]) == Args(p.deps, singletons);
  }

  ghost predicate KeysRight(active: seq<Provider>, builtins: set<Type>, order: seq<nat>, keys: set<Type>) {
    && (forall p | 0 <= p < |order| :: order[p] < |active|)
    && (forall t :: t in keys <==> t in builtins || exists p :: 0 <= p < |order| && active[order[p]].makes == t)
  }

  lemma KeysNext(active: seq<Provider>, builtins: set<Type>, order: seq<nat>, keys: set<Type>, i: nat)
    requires KeysRight(active, builtins, order, keys) && DistinctProvides(active)
    requires i < |active| && i !in order && active[i].makes !in builtins
    ensures active[i].makes !in keys
    ensures KeysRight(active, builtins, order + [i], keys + {active[i].makes})
  {
    var order' := order + [i];
    forall t ensures t in keys + {active[i].makes}
        <==> t in builtins || exists p :: 0 <= p < |order'| && active[order'[p]].makes == t {
      if t in keys && t !in builtins {
        var p :| 0 <= p < |order| && active[order[p]].makes == t;
        assert active[order'[p]].makes == t;
      }
      assert active[order'[|order|]].makes == active[i].makes;
    }
  }

  lemma HoldsNext(active: seq<Provider>, builtins: map<Type, Value>, order: seq<nat>, singletons: map<Type, Value>,
    i: nat)
    requires Holds(active, builtins, order, singletons) && DistinctProvides(active)
    requires i < |active| && i !in order && active[i].makes !in builtins
    requires Callable(active[i].deps, singletons)
    ensures Holds(active, builtins, order + [i],
      singletons[active[i].makes := Built(active[i].fn, Args(active[i].deps, singletons))])
  {
    var c := active[i];
    var value := Built(c.fn, Args(c.deps, singletons));
    var next := singletons[c.makes := value];
    KeysNext(active, builtins.Keys, order, singletons.Keys, i);
    assert next.Keys == singletons.Keys + {c.makes};
    assert Args(c.deps, next) == Args(c.deps, singletons);
    forall p | 0 <= p < |order| ensures Called(active[order[p]], next) {
      CalledStays(active[order[p]], singletons, c.makes, value);
    }
  }

  // Distinct numbers below `n` are at most `n`, and then all of them.
  lemma {:induction false} DistinctBound(xs: seq<nat>, n: nat)
    requires Distinct(xs) && forall k | 0 <= k < |xs| :: xs[k] < n
    ensures |xs| <= n
    ensures |xs| == n ==> forall x | 0 <= x < n :: x in xs
    decreases n
  {
    if xs != [] {
      assert xs[0] < n;
      if k :| 0 <= k < |xs| && xs[k] == n - 1 {
        var rest := xs[..k] + xs[k + 1..];
        forall a | 0 <= a < |rest| ensures rest[a] < n - 1 {
          assert rest[a] == xs[if a < k then a else a + 1];
        }
        DistinctBound(rest, n - 1);
        if |xs| == n {
          forall x | 0 <= x < n - 1 ensures x in xs {
            assert x in rest;
            var a :| 0 <= a < |rest| && rest[a] == x;
            assert xs[if a < k then a else a + 1] == x;
          }
        }
      } else {
        DistinctBound(xs, n - 1);
      }
    }
  }

  // The graph `resolve` walks: every dependency is a built-in or provided by a constructor.
  ghost predicate Sound(active: seq<Provider>, builtins: map<Type, Value>, index: map<Type, nat>,
                        needs: seq<seq<nat>>) {
    && DistinctProvides(active) && Indexes(active, index)
    && (forall i | 0 <= i < |active| :: active[i].makes !in builtins)
    && AllKnown(active, builtins.Keys, index.Keys)
    && needs == Graph(active, builtins.Keys, index)
  }

  lemma DepsHeld(active: seq<Provider>, builtins: map<Type, Value>, index: map<Type, nat>, needs: seq<seq<nat>>,
    order: seq<nat>, singletons: map<Type, Value>, i: nat)
    requires Sound(active, builtins, index, needs) && Holds(active, builtins, order, singletons)
    requires i < |active| && forall k | 0 <= k < |needs[i]| :: needs[i][k] in order
    ensures Callable(active[i].deps, singletons)
  {
    forall k | 0 <= k < |active[i].deps| ensures active[i].deps[k] in singletons {
      var dep := active[i].deps[k];
      if dep !in builtins {
        var q :| 0 <= q < |needs[i]| && needs[i][q] == index[dep];
        assert needs[i][q] in order;
        var p :| 0 <= p < |order| && order[p] == index[dep];
        assert active[order[p]].makes == dep;
      }
    }
  }

  // The arguments of one call (resolver.go:94-97).
  method Gathered(deps: seq<Type>, singletons: map<Type, Value>) returns (args: seq<Value>)
    requires Callable(deps, singletons)
    ensures args == Args(deps, singletons)
  {
    args := [];
    for k := 0 to |deps|
      invariant args == Args(deps[..k], singletons)
    {
      args := args + [singletons[deps[k]]];
    }
    assert deps[..|deps|] == deps;
  }

  // Where the calls stand: some made, some ready to be.
  ghost predicate UnderWay(active: seq<Provider>, builtins: map<Type, Value>, needs: seq<seq<nat>>,
    order: seq<nat>, ready: seq<nat>, indegree: seq<int>, singletons: map<Type, Value>) {
    && Queued(needs, order, ready, indegree) && Topological(needs, order)
    && Holds(active, builtins, order, singletons)
    && Roots(needs) <= order + ready
  }

  lemma UnderWayFirst(active: seq<Provider>, builtins: map<Type, Value>, needs: seq<seq<nat>>,
    indegree: seq<int>, dependents: seq<seq<nat>>)
    requires Linked(needs, |needs|, indegree, dependents) && |indegree| == |needs|
    ensures UnderWay(active, builtins, needs, [], Roots(needs), indegree, builtins) && Mirrors(needs, dependents)
  {
    QueuedFirst(needs, indegree, dependents);
    assert [] + Roots(needs) == Roots(needs);
  }

  // The next constructor has all it needs.
  lemma NextReady(active: seq<Provider>, builtins: map<Type, Value>, index: map<Type, nat>, needs: seq<seq<nat>>,
    order: seq<nat>, i: nat, rest: seq<nat>, indegree: seq<int>, singletons: map<Type, Value>)
    requires Sound(active, builtins, index, needs)
    requires UnderWay(active, builtins, needs, order, [i] + rest, indegree, singletons)
    ensures i < |active| == |needs| && i !in order && Callable(active[i].deps, singletons)
  {
    NeedsBuilt(needs, order, i, rest, indegree);
    hide Queued, Topological, Holds;
    DepsHeld(active, builtins, index, needs, order, singletons, i);
  }

  lemma SomeLeft(needs: seq<seq<nat>>, order: seq<nat>, ready: seq<nat>, indegree: seq<int>)
    requires Queued(needs, order, ready, indegree) && ready != []
    ensures |order| < |needs|
  {
    var known := order + ready;
    assert forall k | 0 <= k < |known| :: known[k] in known;
    DistinctBound(known, |needs|);
  }

  // Its call leaves the singletons right.
  lemma NextHeld(active: seq<Provider>, builtins: map<Type, Value>, index: map<Type, nat>, needs: seq<seq<nat>>,
    order: seq<nat>, i: nat, singletons: map<Type, Value>)
    requires Sound(active, builtins, index, needs) && Holds(active, builtins, order, singletons)
    requires i < |active| && i !in order && Callable(active[i].deps, singletons)
    ensures Holds(active, builtins, order + [i], After(active[i], singletons))
  {
    HoldsNext(active, builtins, order, singletons, i);
  }

  function After(p: Provider, singletons: map<Type, Value>): map<Type, Value>
    requires Callable(p.deps, singletons)
  {
    singletons[p.makes := Built(p.fn, Args(p.deps, singletons))]
  }

  // Its dependents may be released.
  lemma FreedSafe(needs: seq<seq<nat>>, order: seq<nat>, i: nat, rest: seq<nat>, indegree: seq<int>,
    dependents: seq<seq<nat>>)
    requires Queued(needs, order, [i] + rest, indegree) && Mirrors(needs, dependents)
    ensures i < |needs| == |dependents| && Releasable(dependents[i], indegree)
    ensures forall d | 0 <= d < |needs| :: multiset(dependents[i])[d] == multiset(needs[d])[i]
  {
    var known := order + ([i] + rest);
    assert known[|order|] == i;
    assert i in known;
    assert forall p | 0 <= p < |order| :: known[p] == order[p];
    forall d | 0 <= d < |needs| ensures indegree[d] >= multiset(dependents[i])[d] {
      UnmetNext(needs[d], order, i);
    }
  }

  lemma QueueStep(needs: seq<seq<nat>>, order: seq<nat>, i: nat, rest: seq<nat>, indegree: seq<int>,
    dependents: seq<seq<nat>>, now: seq<int>, more: seq<nat>)
    requires Queued(needs, order, [i] + rest, indegree) && Topological(needs, order)
    requires Mirrors(needs, dependents) && i < |dependents|
    requires Released(dependents[i], indegree, now, rest, more)
    ensures Queued(needs, order + [i], more, now) && Topological(needs, order + [i]) && rest <= more
  {
    hide Queued, Topological, Mirrors;
    FreedSafe(needs, order, i, rest, indegree, dependents);
    NeedsBuilt(needs, order, i, rest, indegree);
    QueuedNext(needs, order, i, rest, indegree, dependents[i], now, more);
  }

  lemma NextUnderWay(active: seq<Provider>, builtins: map<Type, Value>, needs: seq<seq<nat>>,
    order: seq<nat>, i: nat, rest: seq<nat>, indegree: seq<int>, dependents: seq<seq<nat>>,
    singletons: map<Type, Value>, now: seq<int>, more: seq<nat>, next: map<Type, Value>)
    requires UnderWay(active, builtins, needs, order, [i] + rest, indegree, singletons)
    requires Mirrors(needs, dependents) && i < |dependents|
    requires Released(dependents[i], indegree, now, rest, more)
    requires Holds(active, builtins, order + [i], next)
    ensures UnderWay(active, builtins, needs, order + [i], more, now, next)
  {
    hide Queued, Topological, Mirrors, Holds, Released;
    QueueStep(needs, order, i, rest, indegree, dependents, now, more);
    assert order + ([i] + rest) == (order + [i]) + rest;
  }

  // One call, and its dependents (resolver.go:92-110).
  method CallOne(active: seq<Provider>, builtins: map<Type, Value>, ghost index: map<Type, nat>,
    ghost needs: seq<seq<nat>>, ghost order: seq<nat>, i: nat, rest: seq<nat>, indegree: array<int>,
    dependents: array<seq<nat>>, singletons: map<Type, Value>)
    returns (next: map<Type, Value>, more: seq<nat>)
    requires Sound(active, builtins, index, needs) && Mirrors(needs, dependents[..])
    requires UnderWay(active, builtins, needs, order, [i] + rest, indegree[..], singletons)
    modifies indegree
    ensures |order| < |needs|
    ensures UnderWay(active, builtins, needs, order + [i], more, indegree[..], next)
  {
    SomeLeft(needs, order, [i] + rest, indegree[..]);
    NextReady(active, builtins, index, needs, order, i, rest, indegree[..], singletons);
    NextHeld(active, builtins, index, needs, order, i, singletons);
    FreedSafe(needs, order, i, rest, indegree[..], dependents[..]);
    hide *;
    ghost var was := indegree[..];
    var args := Gathered(active[i].deps, singletons);
    next := singletons[active[i].makes := Built(active[i].fn, args)];
    assert next == After(active[i], singletons);
    more := Release(dependents[i], indegree, rest);
    NextUnderWay(active, builtins, needs, order, i, rest, was, dependents[..], singletons, indegree[..], more, next);
  }

  // The calls (resolver.go:88-111).
  method Build(active: seq<Provider>, builtins: map<Type, Value>, ghost index: map<Type, nat>,
    ghost needs: seq<seq<nat>>, indegree: array<int>, dependents: array<seq<nat>>, roots: seq<nat>)
    returns (order: seq<nat>, singletons: map<Type, Value>)
    requires Sound(active, builtins, index, needs) && roots == Roots(needs)
    requires |needs| == indegree.Length && Linked(needs, |needs|, indegree[..], dependents[..])
    modifies indegree
    ensures UnderWay(active, builtins, needs, order, [], indegree[..], singletons)
  {
    UnderWayFirst(active, builtins, needs, indegree[..], dependents[..]);
    hide *;
    order, singletons := [], builtins;
    var ready := roots;
    while |ready| > 0
      invariant UnderWay(active, builtins, needs, order, ready, indegree[..], singletons)
      invariant Mirrors(needs, dependents[..])
      decreases |needs| - |order|
    {
      var i := ready[0];
      assert ready == [i] + ready[1..];
      singletons, ready :=
        CallOne(active, builtins, index, needs, order, i, ready[1..], indegree, dependents, singletons);
      order := order + [i];
    }
    assert ready == [];
  }

  // --- What it comes to ---------------------------------------------------------------------

  // A rank that every constructor's dependencies have less of.
  ghost predicate Ranks(active: seq<Provider>, builtins: set<Type>, rank: map<Type, nat>) {
    forall i, k | 0 <= i < |active| && 0 <= k < |active[i].deps| && active[i].deps[k] !in builtins ::
      && active[i].deps[k] in rank && active[i].makes in rank
      && rank[active[i].deps[k]] < rank[active[i].makes]
  }

  ghost predicate Awaits(p: Provider, builtins: set<Type>, types: set<Type>) {
    exists k :: 0 <= k < |p.deps| && p.deps[k] !in builtins && p.deps[k] in types
  }

  // Types whose constructors each wait for one of them.
  ghost predicate Blocked(active: seq<Provider>, builtins: set<Type>, types: set<Type>) {
    forall t | t in types :: exists i :: 0 <= i < |active| && active[i].makes == t && Awaits(active[i], builtins, types)
  }

  lemma BlockedBy(active: seq<Provider>, builtins: set<Type>, types: set<Type>, t: Type) returns (i: nat, k: nat)
    requires Blocked(active, builtins, types) && t in types
    ensures i < |active| && active[i].makes == t
    ensures k < |active[i].deps| && active[i].deps[k] !in builtins && active[i].deps[k] in types
  {
    hide Awaits;
    i :| 0 <= i < |active| && active[i].makes == t && Awaits(active[i], builtins, types);
    k := AwaitedBy(active[i], builtins, types);
  }

  lemma AwaitedBy(p: Provider, builtins: set<Type>, types: set<Type>) returns (k: nat)
    requires Awaits(p, builtins, types)
    ensures k < |p.deps| && p.deps[k] !in builtins && p.deps[k] in types
  {
    k :| 0 <= k < |p.deps| && p.deps[k] !in builtins && p.deps[k] in types;
  }

  lemma {:induction false} RankFrees(active: seq<Provider>, builtins: set<Type>, rank: map<Type, nat>, types: set<Type>,
    t: Type)
    requires Ranks(active, builtins, rank) && Blocked(active, builtins, types)
    ensures t !in types
    decreases if t in rank then rank[t] else 0
  {
    if t in types {
      var i, k := BlockedBy(active, builtins, types, t);
      assert rank[active[i].deps[k]] < rank[active[i].makes];
      hide Ranks, Blocked;
      RankFrees(active, builtins, rank, types, active[i].deps[k]);
    }
  }

  function Unbuilt(active: seq<Provider>, order: seq<nat>): set<Type> {
    set i | 0 <= i < |active| && i !in order :: active[i].makes
  }

  lemma NeedOf(active: seq<Provider>, builtins: map<Type, Value>, index: map<Type, nat>, needs: seq<seq<nat>>,
    i: nat, k: nat)
    requires Sound(active, builtins, index, needs) && i < |active| && k < |active[i].deps|
    requires active[i].deps[k] !in builtins
    ensures active[i].deps[k] in index && index[active[i].deps[k]] in needs[i]
    ensures index[active[i].deps[k]] < |active| && active[index[active[i].deps[k]]].makes == active[i].deps[k]
  {
  }

  lemma UnbuiltBlocked(active: seq<Provider>, builtins: map<Type, Value>, index: map<Type, nat>, needs: seq<seq<nat>>,
    order: seq<nat>, indegree: seq<int>)
    requires Sound(active, builtins, index, needs) && Queued(needs, order, [], indegree)
    ensures Blocked(active, builtins.Keys, Unbuilt(active, order))
  {
    var types := Unbuilt(active, order);
    assert order + [] == order;
    forall t | t in types
      ensures exists i :: 0 <= i < |active| && active[i].makes == t && Awaits(active[i], builtins.Keys, types)
    {
      var i :| 0 <= i < |active| && i !in order && active[i].makes == t;
      assert indegree[i] != 0;
      UnbuiltAwaits(active, builtins, index, needs, order, i);
    }
  }

  lemma UnbuiltAwaits(active: seq<Provider>, builtins: map<Type, Value>, index: map<Type, nat>, needs: seq<seq<nat>>,
    order: seq<nat>, i: nat)
    requires Sound(active, builtins, index, needs) && i < |active| && Unmet(needs[i], order) != 0
    ensures Awaits(active[i], builtins.Keys, Unbuilt(active, order))
  {
    var q :| 0 <= q < |needs[i]| && needs[i][q] !in order;
    assert needs[i][q] in needs[i];
    var k :| 0 <= k < |active[i].deps| && active[i].deps[k] !in builtins && index[active[i].deps[k]] == needs[i][q];
    NeedOf(active, builtins, index, needs, i, k);
  }

  // What has been built is in no blocked set.
  lemma {:induction false} BuiltFree(active: seq<Provider>, builtins: map<Type, Value>, index: map<Type, nat>,
    needs: seq<seq<nat>>, order: seq<nat>, types: set<Type>, p: nat)
    requires Sound(active, builtins, index, needs) && Topological(needs, order) && p < |order|
    requires Blocked(active, builtins.Keys, types)
    ensures active[order[p]].makes !in types
    decreases p
  {
    var i := order[p];
    if active[i].makes in types {
      var j, k := BlockedBy(active, builtins.Keys, types, active[i].makes);
      assert index[active[j].makes] == j && index[active[i].makes] == i;
      NeedOf(active, builtins, index, needs, i, k);
      var m := index[active[i].deps[k]];
      var x :| 0 <= x < |needs[i]| && needs[i][x] == m;
      assert needs[order[p]][x] in order[..p];
      var q :| 0 <= q < p && order[q] == m;
      BuiltFree(active, builtins, index, needs, order, types, q);
    }
  }

  lemma UnbuiltLargest(active: seq<Provider>, builtins: map<Type, Value>, index: map<Type, nat>, needs: seq<seq<nat>>,
    order: seq<nat>, types: set<Type>)
    requires Sound(active, builtins, index, needs) && Topological(needs, order)
    requires Blocked(active, builtins.Keys, types)
    ensures types <= Unbuilt(active, order)
  {
    forall t | t in types ensures t in Unbuilt(active, order) {
      var i :| 0 <= i < |active| && active[i].makes == t && Awaits(active[i], builtins.Keys, types);
      if i in order {
        var p :| 0 <= p < |order| && order[p] == i;
        BuiltFree(active, builtins, index, needs, order, types, p);
      }
    }
  }

  // The place of a constructor among the calls.
  function PlaceOf(order: seq<nat>, i: nat): (p: nat)
    requires i in order
    ensures p < |order| && order[p] == i
  {
    if order[0] == i then 0 else 1 + PlaceOf(order[1..], i)
  }

  lemma PlaceEarlier(order: seq<nat>, p: nat, q: nat)
    requires Distinct(order) && p < |order| && q < |order|
    requires order[q] == order[p]
    ensures p == q
  {
  }

  ghost function RankBy(active: seq<Provider>, index: map<Type, nat>, order: seq<nat>): map<Type, nat>
    requires Indexes(active, index)
    requires forall i | 0 <= i < |active| :: i in order
  {
    map t | t in index :: PlaceOf(order, index[t])
  }

  lemma OrderRanks(active: seq<Provider>, builtins: map<Type, Value>, index: map<Type, nat>, needs: seq<seq<nat>>,
    order: seq<nat>)
    requires Sound(active, builtins, index, needs) && Topological(needs, order) && Distinct(order)
    requires forall i | 0 <= i < |active| :: i in order
    ensures Ranks(active, builtins.Keys, RankBy(active, index, order))
  {
    var rank := RankBy(active, index, order);
    forall i, k | 0 <= i < |active| && 0 <= k < |active[i].deps| && active[i].deps[k] !in builtins
      ensures active[i].deps[k] in rank && active[i].makes in rank && rank[active[i].deps[k]] < rank[active[i].makes]
    {
      NeedOf(active, builtins, index, needs, i, k);
      var m := index[active[i].deps[k]];
      var p := PlaceOf(order, i);
      var x :| 0 <= x < |needs[i]| && needs[i][x] == m;
      assert needs[order[p]][x] in order[..p];
      var q :| 0 <= q < p && order[q] == m;
      PlaceEarlier(order, q, PlaceOf(order, m));
    }
  }

  // The constructors that need only built-ins, in the order they were registered.
  function SelfMade(active: seq<Provider>, builtins: set<Type>): seq<nat> {
    if active == [] then []
    else
      var last := |active| - 1;
      SelfMade(active[..last], builtins)
      + (if forall k | 0 <= k < |active[last].deps| :: active[last].deps[k] in builtins then [last] else [])
  }

  lemma NeedsNothing(deps: seq<Type>, builtins: set<Type>, index: map<Type, nat>)
    requires Known(deps, builtins, index.Keys)
    ensures Needs(deps, builtins, index) == [] <==> forall k | 0 <= k < |deps| :: deps[k] in builtins
  {
    var needs := Needs(deps, builtins, index);
    hide Needs;
    if needs != [] {
      assert needs[0] in needs;
    }
  }

  lemma {:induction false} SelfMadeRoots(active: seq<Provider>, builtins: set<Type>, index: map<Type, nat>)
    requires AllKnown(active, builtins, index.Keys)
    ensures Roots(Graph(active, builtins, index)) == SelfMade(active, builtins)
  {
    if active != [] {
      var last := |active| - 1;
      var needs := Graph(active, builtins, index);
      NeedsNothing(active[last].deps, builtins, index);
      hide Needs, Known;
      SelfMadeRoots(active[..last], builtins, index);
      assert needs[..last] == Graph(active[..last], builtins, index);
    }
  }

  // Every surviving constructor is called exactly once, after those of all it depends on and with
  // their singletons, those that depend on none first, in the order they were registered.
  ghost predicate Complete(active: seq<Provider>, builtins: map<Type, Value>, order: seq<nat>,
    singletons: map<Type, Value>) {
    && Distinct(order) && |order| == |active|
    && (forall p | 0 <= p < |order| :: order[p] < |active| && AfterDeps(active, builtins.Keys, order, p))
    && SelfMade(active, builtins.Keys) <= order
    && Holds(active, builtins, order, singletons)
  }

  ghost predicate AfterDeps(active: seq<Provider>, builtins: set<Type>, order: seq<nat>, p: nat)
    requires p < |order| && order[p] < |active|
  {
    forall k | 0 <= k < |active[order[p]].deps| && active[order[p]].deps[k] !in builtins ::
      exists q :: 0 <= q < p && order[q] < |active| && active[order[q]].makes == active[order[p]].deps[k]
  }

  function StuckOf(active: seq<Provider>, types: set<Type>): seq<Type> {
    if active == [] then []
    else
      var last := |active| - 1;
      StuckOf(active[..last], types) + (if active[last].makes in types then [active[last].makes] else [])
  }

  // Of the surviving constructors, in order, all those and only those that wait for one another, or
  // for one that does.
  ghost predicate ExactlyStuck(active: seq<Provider>, builtins: set<Type>, error: Error) {
    exists types :: types != {} && Blocked(active, builtins, types) && error == Cycle(StuckOf(active, types))
      && forall more | Blocked(active, builtins, more) :: more <= types
  }

  ghost predicate Rankable(active: seq<Provider>, builtins: set<Type>) {
    exists rank :: Ranks(active, builtins, rank)
  }

  // The cycle report (resolver.go:113-122).
  method Report(active: seq<Provider>, indegree: array<int>, ghost types: set<Type>) returns (stuck: seq<Type>)
    requires indegree.Length == |active|
    requires forall i | 0 <= i < |active| :: indegree[i] > 0 <==> active[i].makes in types
    ensures stuck == StuckOf(active, types)
  {
    stuck := [];
    for i := 0 to |active|
      invariant stuck == StuckOf(active[..i], types)
    {
      assert active[..i + 1][..i] == active[..i] && active[..i + 1][i] == active[i];
      if indegree[i] > 0 {
        stuck := stuck + [active[i].makes];
      }
    }
    assert active[..|active|] == active;
  }

  lemma AllBuilt(active: seq<Provider>, builtins: map<Type, Value>, index: map<Type, nat>, needs: seq<seq<nat>>,
    order: seq<nat>, indegree: seq<int>, singletons: map<Type, Value>)
    requires Sound(active, builtins, index, needs) && |order| == |active|
    requires UnderWay(active, builtins, needs, order, [], indegree, singletons)
    ensures Complete(active, builtins, order, singletons) && Rankable(active, builtins.Keys)
  {
    hide *;
    DoneParts(active, builtins, index, needs, order, indegree, singletons);
    AllPlaced(needs, order, indegree);
    OrderRanks(active, builtins, index, needs, order);
    forall p | 0 <= p < |order| ensures order[p] < |active| && AfterDeps(active, builtins.Keys, order, p) {
      AllAfterDeps(active, builtins, index, needs, order, p);
    }
    Completed(active, builtins, order, singletons, RankBy(active, index, order));
  }

  lemma Completed(active: seq<Provider>, builtins: map<Type, Value>, order: seq<nat>, singletons: map<Type, Value>,
    rank: map<Type, nat>)
    requires Distinct(order) && |order| == |active| && SelfMade(active, builtins.Keys) <= order
    requires forall p | 0 <= p < |order| :: order[p] < |active| && AfterDeps(active, builtins.Keys, order, p)
    requires Holds(active, builtins, order, singletons) && Ranks(active, builtins.Keys, rank)
    ensures Complete(active, builtins, order, singletons) && Rankable(active, builtins.Keys)
  {
  }

  // Once nothing is ready.
  lemma DoneParts(active: seq<Provider>, builtins: map<Type, Value>, index: map<Type, nat>, needs: seq<seq<nat>>,
    order: seq<nat>, indegree: seq<int>, singletons: map<Type, Value>)
    requires Sound(active, builtins, index, needs)
    requires UnderWay(active, builtins, needs, order, [], indegree, singletons)
    ensures |needs| == |active| && Indexes(active, index)
    ensures Queued(needs, order, [], indegree) && Topological(needs, order)
    ensures Holds(active, builtins, order, singletons) && SelfMade(active, builtins.Keys) <= order
  {
    assert order + [] == order;
    SelfMadeRoots(active, builtins.Keys, index);
  }

  lemma AllPlaced(needs: seq<seq<nat>>, order: seq<nat>, indegree: seq<int>)
    requires Queued(needs, order, [], indegree)
    ensures Distinct(order)
    ensures |order| == |needs| <==> forall i | 0 <= i < |needs| :: i in order
  {
    assert order + [] == order;
    assert forall k | 0 <= k < |order| :: order[k] in order;
    DistinctBound(order, |needs|);
    if forall i | 0 <= i < |needs| :: i in order {
      DistinctFills(order, |needs|);
    }
  }

  lemma AllAfterDeps(active: seq<Provider>, builtins: map<Type, Value>, index: map<Type, nat>, needs: seq<seq<nat>>,
    order: seq<nat>, p: nat)
    requires Sound(active, builtins, index, needs) && Topological(needs, order) && p < |order|
    ensures order[p] < |active| && AfterDeps(active, builtins.Keys, order, p)
  {
    var deps := active[order[p]].deps;
    forall k | 0 <= k < |deps| && deps[k] !in builtins
      ensures exists q :: 0 <= q < p && order[q] < |active| && active[order[q]].makes == deps[k]
    {
      NeedOf(active, builtins, index, needs, order[p], k);
      var x :| 0 <= x < |needs[order[p]]| && needs[order[p]][x] == index[deps[k]];
      assert needs[order[p]][x] in order[..p];
      var q :| 0 <= q < p && order[q] == index[deps[k]];
    }
  }

  lemma NotAllBuilt(active: seq<Provider>, builtins: map<Type, Value>, index: map<Type, nat>, needs: seq<seq<nat>>,
    order: seq<nat>, indegree: seq<int>, singletons: map<Type, Value>)
    requires Sound(active, builtins, index, needs) && |order| != |active|
    requires UnderWay(active, builtins, needs, order, [], indegree, singletons)
    ensures var types := Unbuilt(active, order);
      && |indegree| == |active|
      && (forall i | 0 <= i < |active| :: indegree[i] > 0 <==> active[i].makes in types)
      && ExactlyStuck(active, builtins.Keys, Cycle(StuckOf(active, types)))
    ensures !Rankable(active, builtins.Keys)
  {
    var types := Unbuilt(active, order);
    hide *;
    DoneParts(active, builtins, index, needs, order, indegree, singletons);
    SomeUnbuilt(active, needs, order, indegree);
    UnbuiltBlocked(active, builtins, index, needs, order, indegree);
    UnbuiltDegrees(active, builtins, index, needs, order, indegree);
    forall more | Blocked(active, builtins.Keys, more) ensures more <= types {
      UnbuiltLargest(active, builtins, index, needs, order, more);
    }
    StuckFor(active, builtins.Keys, types);
  }

  lemma StuckFor(active: seq<Provider>, builtins: set<Type>, types: set<Type>)
    requires types != {} && Blocked(active, builtins, types)
    requires forall more | Blocked(active, builtins, more) :: more <= types
    ensures ExactlyStuck(active, builtins, Cycle(StuckOf(active, types))) && !Rankable(active, builtins)
  {
    hide Blocked, Ranks;
    var t :| t in types;
    forall rank ensures !Ranks(active, builtins, rank) {
      if Ranks(active, builtins, rank) {
        RankFrees(active, builtins, rank, types, t);
      }
    }
  }

  lemma SomeUnbuilt(active: seq<Provider>, needs: seq<seq<nat>>, order: seq<nat>, indegree: seq<int>)
    requires Queued(needs, order, [], indegree) && |order| != |active| == |needs|
    ensures Unbuilt(active, order) != {}
  {
    AllPlaced(needs, order, indegree);
    var i :| 0 <= i < |active| && i !in order;
    assert active[i].makes in Unbuilt(active, order);
  }

  lemma {:induction false} DistinctFills(xs: seq<nat>, n: nat)
    requires forall x | 0 <= x < n :: x in xs
    ensures |xs| >= n
    decreases n
  {
    if n > 0 {
      assert n - 1 in xs;
      var k :| 0 <= k < |xs| && xs[k] == n - 1;
      var rest := xs[..k] + xs[k + 1..];
      forall x | 0 <= x < n - 1 ensures x in rest {
        assert x in xs;
        var a :| 0 <= a < |xs| && xs[a] == x;
        assert rest[if a < k then a else a - 1] == x;
      }
      DistinctFills(rest, n - 1);
    }
  }

  lemma UnbuiltDegrees(active: seq<Provider>, builtins: map<Type, Value>, index: map<Type, nat>, needs: seq<seq<nat>>,
    order: seq<nat>, indegree: seq<int>)
    requires Sound(active, builtins, index, needs) && Queued(needs, order, [], indegree)
    ensures |indegree| == |active|
    ensures forall i | 0 <= i < |active| :: indegree[i] > 0 <==> active[i].makes in Unbuilt(active, order)
  {
    assert order + [] == order;
    forall i | 0 <= i < |active| ensures indegree[i] > 0 <==> active[i].makes in Unbuilt(active, order) {
      if active[i].makes in Unbuilt(active, order) {
        var j :| 0 <= j < |active| && j !in order && active[j].makes == active[i].makes;
        assert index[active[j].makes] == j && index[active[i].makes] == i;
      }
    }
  }

  // Resolving succeeds exactly when every surviving dependency is a built-in or provided and the
  // dependencies can be ranked.
  method Resolve(services: seq<Service>, builtins: map<Type, Value>) returns (r: Resolution)
    ensures var active := Survivors(services);
      if exists k :: 0 <= k < |services| && !Acceptable(services[k], builtins.Keys) then
        r.Refused? && FirstObjection(services, builtins.Keys, r.error)
      else if !AllKnown(active, builtins.Keys, MadeBy(active)) then
        r.Refused? && FirstMissing(active, builtins.Keys, MadeBy(active), r.error)
      else if Rankable(active, builtins.Keys) then
        r.Resolved? && Complete(active, builtins, r.order, r.singletons)
      else
        r.Refused? && ExactlyStuck(active, builtins.Keys, r.error)
  {
    hide *;
    var refusal, active, index := Register(services, builtins.Keys);
    if refusal.Some? {
      return Refused(refusal.value);
    }
    AcceptedSound(services, builtins, active, index);
    var missing, indegree, dependents, ready := BuildGraph(active, builtins.Keys, index);
    if missing.Some? {
      return Refused(missing.value);
    }
    ghost var needs := Graph(active, builtins.Keys, index);
    var order, singletons := Build(active, builtins, index, needs, indegree, dependents, ready);
    if |order| != |active| {
      NotAllBuilt(active, builtins, index, needs, order, indegree[..], singletons);
      var stuck := Report(active, indegree, Unbuilt(active, order));
      return Refused(Cycle(stuck));
    }
    AllBuilt(active, builtins, index, needs, order, indegree[..], singletons);
    return Resolved(singletons, order);
  }

  lemma AcceptedSound(services: seq<Service>, builtins: map<Type, Value>, active: seq<Provider>, index: map<Type, nat>)
    requires forall k | 0 <= k < |services| :: Acceptable(services[k], builtins.Keys)
    requires active == Survivors(services) && Indexes(active, index)
    ensures index.Keys == MadeBy(active)
    ensures AllKnown(active, builtins.Keys, index.Keys) ==>
      Sound(active, builtins, index, Graph(active, builtins.Keys, index))
  {
    SurvivorsExact(services, Provider(0, [], 0));
    forall i | 0 <= i < |active| ensures active[i].makes !in builtins {
      assert active[i] in active;
      SurvivorsExact(services, active[i]);
    }
  }
}
