/**
  Buildings: production, the recipient queue a building delivers to in turn,
  the provider lists kept on the other side, and construction sites.

  A `ConstructionSite` is a `Building` whose `constructs` names the preset it
  turns into; its `Fabricate` replaces it on its tile and providers skip it
  while `isReceiving` is set. Ticks, the availability of a delivery agent and
  the buildings an overlap query finds (with their distances) are parameters.
*/
module Placeables {
  import opened Wrappers
  import opened Resources
  import Tiles

  /** `BuildingPreset`: the data a building is created from. */
  datatype Preset = Preset(
    initialStorage: seq<Resource>,
    productionCost: seq<Resource>,
    produces: seq<Resource>,
    buildCost: seq<Resource>,
    productionTime: int,
    transportTime: int)

  /** The resources and the target handed to a spawned delivery agent. */
  datatype Delivery = Delivery(resources: seq<Resource>, target: Building)

  /** A building found in range, with its distance from the searching building. */
  datatype Ranked = Ranked(building: Building, dist: int)

  /** `BuildingByDistanceComparer.Compare`: orders by distance, equal distances compare equal. */
  function Compare(a: Ranked, b: Ranked): (r: int)
    ensures -1 <= r <= 1
    ensures r < 0 <==> a.dist < b.dist
    ensures r == 0 <==> a.dist == b.dist
  {
    if a.dist > b.dist then 1 else if a.dist == b.dist then 0 else -1
  }

  /** The comparer is a consistent total preorder, as `List.Sort` needs. */
  lemma CompareIsConsistent(a: Ranked, b: Ranked, c: Ranked)
    ensures Compare(a, b) == -Compare(b, a)
    ensures Compare(a, a) == 0
    ensures Compare(a, b) <= 0 && Compare(b, c) <= 0 ==> Compare(a, c) <= 0
  {
  }

  /** Ascending by distance: the comparer never puts an entry before a nearer one. */
  predicate Ascending(s: seq<Ranked>)
  {
    forall i, j :: 0 <= i < j < |s| ==> s[i].dist <= s[j].dist
  }

  /** Inserts `x` into an ascending list before the first entry that is not nearer. */
  function Insert(x: Ranked, s: seq<Ranked>): (r: seq<Ranked>)
    ensures multiset(r) == multiset(s) + multiset{x}
  {
    if s == [] || Compare(x, s[0]) <= 0 then [x] + s
    else
      assert s == [s[0]] + s[1..];
      [s[0]] + Insert(x, s[1..])
  }

  /** Inserting into an ascending list keeps it ascending. */
  lemma {:induction false} InsertKeepsAscending(x: Ranked, s: seq<Ranked>)
    requires Ascending(s)
    ensures Ascending(Insert(x, s))
  {
    if s != [] && Compare(x, s[0]) > 0 {
      var rest := Insert(x, s[1..]);
      InsertKeepsAscending(x, s[1..]);
      assert rest[0] == x || rest[0] == s[1];
      var r := [s[0]] + rest;
      forall i, j | 0 <= i < j < |r| ensures r[i].dist <= r[j].dist {
        if i > 0 {
          assert r[i] == rest[i - 1] && r[j] == rest[j - 1];
        } else {
          assert r[j] == rest[j - 1];
        }
      }
    }
  }

  /**
    `List.Sort` with the distance comparer: a permutation of the list in
    ascending distance.
  */
  function SortByDistance(s: seq<Ranked>): (r: seq<Ranked>)
    ensures multiset(r) == multiset(s)
    ensures Ascending(r)
  {
    if s == [] then []
    else
      assert s == [s[0]] + s[1..];
      InsertKeepsAscending(s[0], SortByDistance(s[1..]));
      Insert(s[0], SortByDistance(s[1..]))
  }

  /**
    The type-intersection test of `GetBuildingsInRange`: some type the other
    building needs is a type this one produces.
  */
  predicate SharesKind(needed: seq<Resource>, produced: seq<Resource>)
  {
    exists i, j :: 0 <= i < |needed| && 0 <= j < |produced| && needed[i].kind == produced[j].kind
  }

  /** The buildings of `s` in reverse order: the queue after inserting each of them in turn at the front. */
  function FrontInserted(s: seq<Ranked>): (q: seq<Building>)
  {
    seq(|s|, i requires 0 <= i < |s| => s[|s| - 1 - i].building)
  }

  /** Inserting the next building of `s` at the front extends the reversed prefix. */
  lemma FrontInsertedStep(s: seq<Ranked>, i: nat)
    requires i < |s|
    ensures FrontInserted(s[..i + 1]) == [s[i].building] + FrontInserted(s[..i])
  {
    var a := FrontInserted(s[..i + 1]);
    var b := [s[i].building] + FrontInserted(s[..i]);
    assert |a| == |b|;
    forall k | 0 <= k < |a| ensures a[k] == b[k] {
      if k > 0 {
        assert b[k] == FrontInserted(s[..i])[k - 1];
      }
    }
  }

  /** No element occurs twice. */
  predicate NoDuplicates<T(==)>(s: seq<T>)
  {
    forall i, j :: 0 <= i < j < |s| ==> s[i] != s[j]
  }

  /** `AddProvider` on the list: appends `x` unless it is already there. */
  function WithProvider<T(==)>(ps: seq<T>, x: T): (r: seq<T>)
    ensures x in r
  {
    if x in ps then ps else ps + [x]
  }

  /** Adding a provider keeps the others, adds no one else, and never duplicates. */
  lemma WithProviderMembers<T>(ps: seq<T>, x: T)
    ensures forall y :: y in WithProvider(ps, x) <==> y in ps || y == x
    ensures NoDuplicates(ps) ==> NoDuplicates(WithProvider(ps, x))
  {
  }

  /** Adding a provider twice is adding it once. */
  lemma WithProviderIdempotent<T>(ps: seq<T>, x: T)
    ensures WithProvider(WithProvider(ps, x), x) == WithProvider(ps, x)
  {
  }

  /** `List.Remove`: drops the first occurrence of `x`, if any. */
  function RemoveFirst<T(==)>(ps: seq<T>, x: T): (r: seq<T>)
    ensures multiset(r) == multiset(ps) - multiset{x}
  {
    if ps == [] then []
    else if ps[0] == x then
      assert ps == [ps[0]] + ps[1..];
      ps[1..]
    else
      assert ps == [ps[0]] + ps[1..];
      [ps[0]] + RemoveFirst(ps[1..], x)
  }

  /** Removing from a list without duplicates leaves none. */
  lemma {:induction false} RemoveFirstKeepsNoDuplicates<T>(ps: seq<T>, x: T)
    requires NoDuplicates(ps)
    ensures NoDuplicates(RemoveFirst(ps, x))
  {
    if ps != [] && ps[0] != x {
      var tail := ps[1..];
      RemoveFirstKeepsNoDuplicates(tail, x);
      var rest := RemoveFirst(tail, x);
      assert ps[0] !in rest by {
        assert forall k :: 0 <= k < |tail| ==> tail[k] == ps[k + 1] != ps[0];
        assert multiset(tail)[ps[0]] == 0;
        assert multiset(rest)[ps[0]] == 0;
      }
      var r := [ps[0]] + rest;
      forall i, j | 0 <= i < j < |r| ensures r[i] != r[j] {
        if i > 0 {
          assert r[i] == rest[i - 1] && r[j] == rest[j - 1];
        } else {
          assert r[j] in rest;
        }
      }
    }
  }

  /** `x` removed `n` times, once for each time `OnDestroy` meets the list's owner in its queue. */
  function RemoveTimes<T(==)>(ps: seq<T>, x: T, n: nat): seq<T>
  {
    if n == 0 then ps else RemoveFirst(RemoveTimes(ps, x, n - 1), x)
  }

  /** Removing an absent element changes nothing. */
  lemma {:induction false} RemoveFirstAbsent<T>(ps: seq<T>, x: T)
    requires x !in ps
    ensures RemoveFirst(ps, x) == ps
  {
    if ps != [] {
      assert ps == [ps[0]] + ps[1..];
      RemoveFirstAbsent(ps[1..], x);
    }
  }

  /**
    On a list without duplicates, one removal takes the element out and keeps
    every other element.
  */
  lemma RemoveFirstRemoves<T>(ps: seq<T>, x: T)
    requires NoDuplicates(ps)
    ensures x !in RemoveFirst(ps, x)
    ensures forall y :: y != x ==> (y in RemoveFirst(ps, x) <==> y in ps)
    ensures NoDuplicates(RemoveFirst(ps, x))
  {
    RemoveFirstKeepsNoDuplicates(ps, x);
    var r := RemoveFirst(ps, x);
    assert multiset(ps)[x] <= 1 by {
      if x in ps {
        var i :| 0 <= i < |ps| && ps[i] == x;
        MultiplicityOne(ps, i);
      }
    }
    assert multiset(r)[x] == 0;
    forall y | y != x ensures y in r <==> y in ps {
      assert multiset(r)[y] == multiset(ps)[y];
    }
  }

  /**
    On a provider list without duplicates, removing a building at least once
    removes it and keeps every other provider.
  */
  lemma {:induction false} RemoveTimesRemoves<T>(ps: seq<T>, x: T, n: nat)
    requires NoDuplicates(ps) && n > 0
    ensures x !in RemoveTimes(ps, x, n)
    ensures forall y :: y != x ==> (y in RemoveTimes(ps, x, n) <==> y in ps)
    ensures NoDuplicates(RemoveTimes(ps, x, n))
  {
    if n == 1 {
      assert RemoveTimes(ps, x, 0) == ps;
      RemoveFirstRemoves(ps, x);
    } else {
      RemoveTimesRemoves(ps, x, n - 1);
      RemoveFirstAbsent(RemoveTimes(ps, x, n - 1), x);
    }
  }

  /** An element of a list without duplicates occurs exactly once. */
  lemma {:induction false} MultiplicityOne<T>(ps: seq<T>, i: int)
    requires NoDuplicates(ps) && 0 <= i < |ps|
    ensures multiset(ps)[ps[i]] == 1
  {
    assert ps == ps[..i] + [ps[i]] + ps[i + 1..];
    assert ps[i] !in ps[..i];
    assert ps[i] !in ps[i + 1..];
  }

  /** A building or a construction site. */
  class Building {
    const input: Storage
    const output: Storage
    /** `LocalPreset`. */
    const preset: Preset
    const productionCost: seq<Resource>
    const produces: seq<Resource>
    /** `ConstructionSite.PresetToConstruct`; `None` for a building that is not a site. */
    const constructs: Option<Preset>
    /** `ConstructionSite.isReceiving`: a delivery to this site is under way. */
    var isReceiving: bool
    /** The hosting tile, known once the building is placed. */
    var tile: Option<Tiles.Coord>
    /** The buildings that deliver to this one. */
    var providers: seq<Building>
    /** The buildings this one delivers to, in turn. */
    var recipients: seq<Building>

    /** Creates a building of a preset: its input holds the preset's initial storage. */
    constructor (preset: Preset)
      ensures Valid() && fresh(input) && fresh(output)
      ensures this.preset == preset && constructs == None
      ensures productionCost == preset.productionCost && produces == preset.produces
      ensures input.contents == AddedAll(map[], preset.initialStorage) && output.contents == map[]
      ensures providers == [] && recipients == [] && !isReceiving && tile == None
    {
      this.preset := preset;
      input := new Storage(preset.initialStorage);
      output := new Storage([]);
      productionCost := preset.productionCost;
      produces := preset.produces;
      constructs := None;
      isReceiving := false;
      tile := None;
      providers := [];
      recipients := [];
    }

    /** `ConstructionSite(preset, toConstruct)`: a site whose cost is the target's build cost. */
    constructor Site(preset: Preset, toConstruct: Preset)
      ensures Valid() && fresh(input) && fresh(output)
      ensures this.preset == preset && constructs == Some(toConstruct)
      ensures productionCost == toConstruct.buildCost && produces == preset.produces
      ensures input.contents == AddedAll(map[], preset.initialStorage) && output.contents == map[]
      ensures providers == [] && recipients == [] && !isReceiving && tile == None
    {
      this.preset := preset;
      input := new Storage(preset.initialStorage);
      output := new Storage([]);
      productionCost := toConstruct.buildCost;
      produces := preset.produces;
      constructs := Some(toConstruct);
      isReceiving := false;
      tile := None;
      providers := [];
      recipients := [];
    }

    /** The input and the output are two storages. */
    predicate Valid()
    {
      input != output
    }

    /** A construction site with a delivery under way, which providers skip. */
    predicate Busy()
      reads this`isReceiving
    {
      constructs.Some? && isReceiving
    }

    /** A building this one delivers to: not itself, and needing a type this one produces. */
    predicate Supplies(b: Building)
    {
      b != this && SharesKind(b.productionCost, produces)
    }

    /** The part of `GetBuildingsInRange` that keeps the buildings this one supplies, in order. */
    function Eligible(candidates: seq<Ranked>): (e: seq<Ranked>)
      ensures forall c :: c in candidates ==>
                multiset(e)[c] == if Supplies(c.building) then multiset(candidates)[c] else 0
      ensures forall c :: c in e ==> c in candidates && Supplies(c.building)
    {
      if candidates == [] then []
      else
        var front := candidates[..|candidates| - 1];
        var last := candidates[|candidates| - 1];
        assert candidates == front + [last];
        Eligible(front) + (if Supplies(last.building) then [last] else [])
    }

    method InitializeAfterInstantiation(hostingTile: Tiles.Coord)
      modifies this`tile
      ensures tile == Some(hostingTile)
    {
      tile := Some(hostingTile);
    }

    method InsertAtFrontOfQueue(b: Building)
      modifies this`recipients
      ensures recipients == [b] + old(recipients)
    {
      recipients := [b] + recipients;
    }

    method EnqueueRecipient(b: Building)
      modifies this`recipients
      ensures recipients == old(recipients) + [b]
    {
      recipients := recipients + [b];
    }

    /** Takes the head of the queue; the list indexer throws on an empty queue. */
    method DequeueRecipient() returns (first: Building)
      requires |recipients| > 0
      modifies this`recipients
      ensures first == old(recipients)[0] && recipients == old(recipients)[1..]
    {
      first := recipients[0];
      recipients := recipients[1..];
    }

    /** `AddProvider`: providers never hold a building twice. */
    method AddProvider(b: Building)
      modifies this`providers
      ensures providers == WithProvider(old(providers), b)
    {
      if b !in providers {
        providers := providers + [b];
      }
    }

    /** `RemoveProvider`: drops the first occurrence. */
    method RemoveProvider(b: Building)
      modifies this`providers
      ensures providers == RemoveFirst(old(providers), b)
    {
      providers := RemoveFirst(providers, b);
    }

    /** `AddToStorage`: adds the amounts one after the other. */
    method AddToStorage(storage: Storage, resources: seq<Resource>)
      modifies storage
      ensures storage.contents == AddedAll(old(storage.contents), resources)
    {
      var i := 0;
      while i < |resources|
        invariant 0 <= i <= |resources|
        invariant storage.contents == AddedAll(old(storage.contents), resources[..i])
      {
        assert resources[..i + 1][..i] == resources[..i];
        storage.Add(resources[i]);
        i := i + 1;
      }
      assert resources[..i] == resources;
    }

    /** `RemoveFromStorage`: removes the amounts one after the other; each type needs an entry. */
    method RemoveFromStorage(storage: Storage, resources: seq<Resource>)
      requires KindsIn(storage.contents, resources)
      modifies storage
      ensures storage.contents == RemovedAll(old(storage.contents), resources)
    {
      var i := 0;
      while i < |resources|
        invariant 0 <= i <= |resources|
        invariant KindsIn(old(storage.contents), resources[..i])
        invariant storage.contents == RemovedAll(old(storage.contents), resources[..i])
      {
        assert resources[..i + 1][..i] == resources[..i];
        storage.Remove(resources[i]);
        i := i + 1;
      }
      assert resources[..i] == resources;
    }

    /**
      `Fabricate` of a building: atomically, either the input holds the whole
      production cost and it is consumed while the products are added to the
      output, or neither storage changes. The game raises no event here; the
      model reports whether the cost was held, for `Produce` to pass on.
    */
    method Fabricate() returns (fabricated: bool)
      requires Valid()
      modifies input, output
      ensures fabricated == HoldsAll(old(input.contents), productionCost)
      ensures HoldsAll(old(input.contents), productionCost) ==>
                && input.contents == RemovedAll(old(input.contents), productionCost)
                && output.contents == AddedAll(old(output.contents), produces)
      ensures !HoldsAll(old(input.contents), productionCost) ==>
                input.contents == old(input.contents) && output.contents == old(output.contents)
    {
      fabricated := input.HasResourcesRequired(productionCost);
      if !fabricated {
        return;
      }
      RemoveFromStorage(input, productionCost);
      AddToStorage(output, produces);
    }

    /**
      `ConstructionSite.Fabricate`: reports whether the input holds the build
      cost (the value `OnFabricate` is invoked with); if it does, the site's
      tile is emptied and a building of the target preset is placed on it. The
      site's own storages are not touched.
    */
    method FabricateSite(grid: Tiles.Grid<Building>) returns (hasRequired: bool, built: Option<Building>)
      requires constructs.Some? && tile.Some? && grid.Valid()
      modifies grid
      ensures hasRequired == HoldsAll(input.contents, productionCost)
      ensures !hasRequired ==> built == None && grid.content == old(grid.content)
      ensures hasRequired ==>
                && built.Some? && fresh(built.value)
                && built.value.preset == constructs.value && built.value.constructs == None
                && built.value.tile == tile
                && grid.content.Keys == old(grid.content.Keys) + {tile.value}
                && grid.content[tile.value] == Tiles.Built(built.value)
                && Tiles.RoadsOf(grid.content) == old(Tiles.RoadsOf(grid.content)) - {tile.value}
                && forall u :: u in grid.content && u != tile.value ==>
                     grid.content[u] == if u in Tiles.RoadTiles(Tiles.RoadsOf(grid.content), grid.neighbours(tile.value))
                                        then Tiles.Road(Tiles.PieceFor(Tiles.RoadsOf(grid.content), grid.neighbours(u)))
                                        else old(grid.content)[u]
    {
      hasRequired := input.HasResourcesRequired(productionCost);
      if !hasRequired {
        return hasRequired, None;
      }
      grid.RemoveContent(tile.value);
      var b := PlaceBuildingAt(grid, tile.value, constructs.value);
      assert Tiles.RoadsOf(grid.content) == old(Tiles.RoadsOf(grid.content)) - {tile.value};
      built := Some(b);
    }

    /** `Produce`: fabricates on the ticks that are a multiple of the production time. */
    method Produce(tick: nat, grid: Tiles.Grid<Building>) returns (attempt: Option<bool>, built: Option<Building>)
      requires preset.productionTime != 0
      requires Valid() && grid.Valid() && (constructs.Some? ==> tile.Some?)
      modifies input, output, grid
      ensures tick % preset.productionTime != 0 ==>
                && attempt == None
                && input.contents == old(input.contents) && output.contents == old(output.contents)
                && grid.content == old(grid.content)
      ensures tick % preset.productionTime == 0 ==> attempt == Some(HoldsAll(old(input.contents), productionCost))
      ensures constructs.None? ==> grid.content == old(grid.content)
      ensures constructs.None? && attempt == Some(true) ==>
                && input.contents == RemovedAll(old(input.contents), productionCost)
                && output.contents == AddedAll(old(output.contents), produces)
      ensures attempt != Some(true) ==>
                input.contents == old(input.contents) && output.contents == old(output.contents)
      ensures constructs.Some? ==> input.contents == old(input.contents) && output.contents == old(output.contents)
      ensures constructs.Some? && attempt != Some(true) ==> grid.content == old(grid.content)
      ensures attempt != Some(true) || constructs.None? ==> built == None
      ensures constructs.Some? && attempt == Some(true) ==>
                && built.Some? && fresh(built.value)
                && built.value.preset == constructs.value && built.value.constructs == None
                && built.value.tile == tile
                && grid.content.Keys == old(grid.content.Keys) + {tile.value}
                && grid.content[tile.value] == Tiles.Built(built.value)
                && Tiles.RoadsOf(grid.content) == old(Tiles.RoadsOf(grid.content)) - {tile.value}
                && forall u :: u in grid.content && u != tile.value ==>
                     grid.content[u] == if u in Tiles.RoadTiles(Tiles.RoadsOf(grid.content), grid.neighbours(tile.value))
                                        then Tiles.Road(Tiles.PieceFor(Tiles.RoadsOf(grid.content), grid.neighbours(u)))
                                        else old(grid.content)[u]
    {
      attempt, built := None, None;
      if tick % preset.productionTime == 0 {
        var has;
        if constructs.Some? {
          has, built := FabricateSite(grid);
        } else {
          has := Fabricate();
        }
        attempt := Some(has);
      }
    }

    /** The requested amounts the output holds in full, in the recipient's order. */
    method ResourcesToSend(recipient: Building) returns (toSend: seq<Resource>)
      ensures toSend == Sendable(output.contents, recipient.productionCost)
    {
      var cost := recipient.productionCost;
      toSend := [];
      var i := 0;
      while i < |cost|
        invariant 0 <= i <= |cost|
        invariant toSend == Sendable(output.contents, cost[..i])
      {
        assert cost[..i + 1][..i] == cost[..i];
        if output.HasResourceRequired(cost[i]) {
          toSend := toSend + [cost[i]];
        }
        i := i + 1;
      }
      assert cost[..i] == cost;
    }

    /**
      `TransportToRecipients`. Busy sites at the head of the queue are dropped
      from it. The first other recipient, asking for nothing the output holds
      in full, goes back to the front. Otherwise it goes to the tail, and when
      an agent is available the sendable amounts leave the output, are handed
      to the agent, and a site recipient becomes busy.
    */
    method TransportToRecipients(agentAvailable: bool) returns (delivery: Option<Delivery>)
      modifies this`recipients, output, recipients`isReceiving
      decreases 2 * |recipients| + 1
      ensures var t := Transported(old(recipients), old(FirstReady(recipients)), old(output.contents), agentAvailable);
              recipients == t.queue && delivery == t.delivery && output.contents == t.output
      ensures forall b :: b in old(recipients) ==>
                b.isReceiving == (old(b.isReceiving) || (delivery.Some? && b == delivery.value.target && b.constructs.Some?))
    {
      delivery := None;
      if |recipients| > 0 {
        ghost var q := recipients;
        var recipient := DequeueRecipient();
        var toSend := ResourcesToSend(recipient);
        if recipient.constructs.Some? && recipient.isReceiving {
          delivery := SkipBusy(q, agentAvailable);
        } else {
          assert FirstReady(q) == 0;
          delivery := Dispatch(q, recipient, toSend, agentAvailable);
        }
      }
    }

    /**
      The part of `TransportToRecipients` after a busy construction site left
      the front of the queue: it is dropped and the rest of the queue is tried.
    */
    method SkipBusy(ghost q: seq<Building>, agentAvailable: bool) returns (delivery: Option<Delivery>)
      requires |q| > 0 && recipients == q[1..] && q[0].Busy()
      modifies this`recipients, output, q`isReceiving
      decreases 2 * |recipients| + 2
      ensures var t := Transported(q, old(FirstReady(q)), old(output.contents), agentAvailable);
              recipients == t.queue && delivery == t.delivery && output.contents == t.output
      ensures forall b :: b in q ==>
                b.isReceiving == (old(b.isReceiving) || (delivery.Some? && b == delivery.value.target && b.constructs.Some?))
    {
      ghost var k' := FirstReady(q[1..]);
      assert FirstReady(q) == 1 + k';
      TransportedSkipsBusy(q, k', output.contents, agentAvailable);
      delivery := TransportToRecipients(agentAvailable);
      forall b | b in q
        ensures b.isReceiving == (old(b.isReceiving) || (delivery.Some? && b == delivery.value.target && b.constructs.Some?))
      {
        if b !in q[1..] {
          assert b == q[0];
        }
      }
    }

    /**
      The part of `TransportToRecipients` after a recipient that is not a busy
      site left the queue: with nothing to send it goes back to the front;
      otherwise to the tail, after an available agent took the amounts.
    */
    method Dispatch(ghost q: seq<Building>, recipient: Building, toSend: seq<Resource>, agentAvailable: bool)
      returns (delivery: Option<Delivery>)
      requires |q| > 0 && q[0] == recipient && recipients == q[1..]
      requires toSend == Sendable(output.contents, recipient.productionCost)
      modifies this`recipients, output, recipient`isReceiving
      ensures var t := Transported(q, 0, old(output.contents), agentAvailable);
              recipients == t.queue && delivery == t.delivery && output.contents == t.output
      ensures forall b :: b in q ==>
                b.isReceiving == (old(b.isReceiving) || (delivery.Some? && b == delivery.value.target && b.constructs.Some?))
    {
      delivery := None;
      assert q[0 + 1..] == q[1..];
      if |toSend| == 0 {
        InsertAtFrontOfQueue(recipient);
        return;
      }
      if agentAvailable {
        RemoveFromStorage(output, toSend);
        delivery := Some(Delivery(toSend, recipient));
        if recipient.constructs.Some? {
          recipient.isReceiving := true;
        }
      }
      EnqueueRecipient(recipient);
    }

    /** `Transport`: delivers on the ticks that are a multiple of the transport time. */
    method Transport(tick: nat, agentAvailable: bool) returns (delivery: Option<Delivery>)
      requires preset.transportTime != 0
      modifies this`recipients, output, recipients`isReceiving
      ensures tick % preset.transportTime != 0 ==>
                delivery == None && recipients == old(recipients) && output.contents == old(output.contents)
      ensures tick % preset.transportTime == 0 ==>
                var t := Transported(old(recipients), old(FirstReady(recipients)), old(output.contents), agentAvailable);
                recipients == t.queue && delivery == t.delivery && output.contents == t.output
      ensures forall b :: b in old(recipients) ==>
                b.isReceiving == (old(b.isReceiving) || (delivery.Some? && b == delivery.value.target && b.constructs.Some?))
    {
      delivery := None;
      if tick % preset.transportTime == 0 {
        delivery := TransportToRecipients(agentAvailable);
      }
    }

    /** Some neighbour of the building's tile holds a road. */
    predicate RoadNext(grid: Tiles.Grid<Building>)
      requires tile.Some?
      reads this`tile, grid
    {
      exists i :: 0 <= i < |grid.neighbours(tile.value)| &&
                  grid.neighbours(tile.value)[i].tile in Tiles.RoadsOf(grid.content)
    }

    /** Whether a neighbour of the building's tile holds a road; stops at the first. */
    method HasRoadNeighbour(grid: Tiles.Grid<Building>) returns (found: bool)
      requires tile.Some?
      ensures found == RoadNext(grid)
    {
      var ns := grid.neighbours(tile.value);
      found := false;
      var i := 0;
      while i < |ns|
        invariant 0 <= i <= |ns|
        invariant forall j :: 0 <= j < i ==> ns[j].tile !in Tiles.RoadsOf(grid.content)
      {
        if ns[i].tile in grid.content && grid.content[ns[i].tile].Road? {
          found := true;
          return;
        }
        i := i + 1;
      }
    }

    /**
      `GetBuildingsInRange`: of the buildings the overlap query found, those
      this one supplies, sorted by ascending distance.
    */
    method GetBuildingsInRange(candidates: seq<Ranked>) returns (inRange: seq<Ranked>)
      ensures inRange == SortByDistance(Eligible(candidates))
    {
      var found := [];
      var i := 0;
      while i < |candidates|
        invariant 0 <= i <= |candidates|
        invariant found == Eligible(candidates[..i])
      {
        assert candidates[..i + 1][..i] == candidates[..i];
        var other := candidates[i].building;
        if other != this && SharesKind(other.productionCost, produces) {
          found := found + [candidates[i]];
        }
        i := i + 1;
      }
      assert candidates[..i] == candidates;
      inRange := SortByDistance(found);
    }

    /**
      `RefreshRecipients`: empties the queue; with a road next to the building,
      inserts each building it supplies at the front, nearest first (so the
      farthest ends up at the head), and adds itself to their providers.
    */
    method RefreshRecipients(grid: Tiles.Grid<Building>, candidates: seq<Ranked>)
      requires tile.Some?
      modifies this`recipients, Buildings(candidates)`providers
      ensures recipients == if old(RoadNext(grid)) then FrontInserted(SortByDistance(Eligible(candidates))) else []
      ensures forall b :: b in recipients ==> this in b.providers
      ensures forall j :: 0 <= j < |candidates| ==>
                candidates[j].building.providers ==
                  if candidates[j].building in recipients
                  then WithProvider(old(candidates[j].building.providers), this)
                  else old(candidates[j].building.providers)
    {
      recipients := [];
      var road := HasRoadNeighbour(grid);
      if !road {
        return;
      }
      var inRange := GetBuildingsInRange(candidates);
      forall k | 0 <= k < |inRange| ensures inRange[k] in candidates {
        assert multiset(inRange)[inRange[k]] > 0;
      }
      ConnectRecipients(inRange, candidates);
    }

    /**
      The loop of `RefreshRecipients`: each building of `inRange` in turn goes
      to the front of the empty queue and gets this building as a provider.
    */
    method ConnectRecipients(inRange: seq<Ranked>, candidates: seq<Ranked>)
      requires recipients == []
      requires forall k :: 0 <= k < |inRange| ==> inRange[k] in candidates
      modifies this`recipients, Buildings(candidates)`providers
      ensures recipients == FrontInserted(inRange)
      ensures forall b :: b in recipients ==> this in b.providers
      ensures forall j :: 0 <= j < |candidates| ==>
                candidates[j].building.providers ==
                  if candidates[j].building in recipients
                  then WithProvider(old(candidates[j].building.providers), this)
                  else old(candidates[j].building.providers)
    {
      ghost var before := ProvidersOf(candidates);
      var i := 0;
      while i < |inRange|
        invariant 0 <= i <= |inRange|
        invariant recipients == FrontInserted(inRange[..i])
        invariant ProvidersAdded(candidates, before)
      {
        var jb :| 0 <= jb < |candidates| && candidates[jb] == inRange[i];
        ConnectRecipient(jb, candidates, before);
        FrontInsertedStep(inRange, i);
        i := i + 1;
      }
      assert inRange[..i] == inRange;
      RecipientsProvided(inRange, candidates, before);
    }

    /** Once the loop is done, every recipient has this building among its providers. */
    lemma RecipientsProvided(inRange: seq<Ranked>, candidates: seq<Ranked>, before: seq<seq<Building>>)
      requires forall k :: 0 <= k < |inRange| ==> inRange[k] in candidates
      requires recipients == FrontInserted(inRange) && ProvidersAdded(candidates, before)
      ensures forall b :: b in recipients ==> this in b.providers
    {
      forall b | b in recipients ensures this in b.providers {
        var r :| 0 <= r < |recipients| && recipients[r] == b;
        var j :| 0 <= j < |candidates| && candidates[j] == inRange[|inRange| - 1 - r];
      }
    }

    /** The provider lists of the candidates' buildings, in the candidates' order. */
    ghost function ProvidersOf(candidates: seq<Ranked>): (ps: seq<seq<Building>>)
      reads Buildings(candidates)
      ensures |ps| == |candidates|
      ensures forall j :: 0 <= j < |candidates| ==> ps[j] == candidates[j].building.providers
    {
      if candidates == [] then []
      else
        assert Buildings(candidates)[0] == candidates[0].building;
        [candidates[0].building.providers] + ProvidersOf(candidates[1..])
    }

    /**
      Each candidate's building in the queue has this building added to the
      provider list it had before, and every other candidate's list is as before.
    */
    ghost predicate ProvidersAdded(candidates: seq<Ranked>, before: seq<seq<Building>>)
      reads this, Buildings(candidates)
    {
      && |before| == |candidates|
      && forall j :: 0 <= j < |candidates| ==>
           candidates[j].building.providers ==
             if candidates[j].building in recipients then WithProvider(before[j], this) else before[j]
    }

    /** One step of the loop: candidate `jb`'s building goes to the front and gets this provider. */
    method ConnectRecipient(jb: nat, candidates: seq<Ranked>, ghost before: seq<seq<Building>>)
      requires jb < |candidates| && ProvidersAdded(candidates, before)
      modifies this`recipients, candidates[jb].building`providers
      ensures recipients == [candidates[jb].building] + old(recipients)
      ensures ProvidersAdded(candidates, before)
    {
      var b := candidates[jb].building;
      WithProviderIdempotent(before[jb], this);
      InsertAtFrontOfQueue(b);
      b.AddProvider(this);
      forall j | 0 <= j < |candidates|
        ensures candidates[j].building.providers ==
                  if candidates[j].building in recipients then WithProvider(before[j], this) else before[j]
      {
        if candidates[j].building != b {
          assert candidates[j].building.providers == old(candidates[j].building.providers);
          assert (candidates[j].building in recipients) == (candidates[j].building in old(recipients));
        }
      }
    }

    /**
      `OnDestroy`: clears this building's providers and removes it from the
      provider list of each building in its queue, once per occurrence there.
      The queues of its own providers keep it.
    */
    method OnDestroy()
      modifies this`providers, recipients`providers
      ensures providers == []
      ensures forall b :: b in old(recipients) && b != this ==>
                b.providers == RemoveTimes(old(b.providers), this, multiset(old(recipients))[b])
    {
      providers := [];
      var i := 0;
      while i < |recipients|
        invariant 0 <= i <= |recipients|
        invariant recipients == old(recipients)
        invariant providers == []
        invariant forall b :: b in recipients && b != this ==>
                    b.providers == RemoveTimes(old(b.providers), this, multiset(recipients[..i])[b])
      {
        var r := recipients[i];
        assert recipients[..i + 1] == recipients[..i] + [r];
        label Before:
        r.RemoveProvider(this);
        forall b | b in recipients && b != this
          ensures b.providers == RemoveTimes(old(b.providers), this, multiset(recipients[..i + 1])[b])
        {
          var n := multiset(recipients[..i])[b];
          if b == r {
            assert multiset(recipients[..i + 1])[b] == n + 1;
            assert old@Before(b.providers) == RemoveTimes(old(b.providers), this, n);
          } else {
            assert multiset(recipients[..i + 1])[b] == n;
            assert b.providers == old@Before(b.providers);
          }
        }
        i := i + 1;
      }
      assert recipients[..i] == recipients == old(recipients);
    }
  }

  /** The index of the first recipient that is not a busy site, or the queue length. */
  ghost function FirstReady(q: seq<Building>): (k: nat)
    reads q`isReceiving
    ensures k <= |q|
    ensures forall j :: 0 <= j < k ==> q[j].Busy()
    ensures k < |q| ==> !q[k].Busy()
  {
    if q == [] then 0 else if q[0].Busy() then 1 + FirstReady(q[1..]) else 0
  }

  /** What one `TransportToRecipients` leaves behind: the queue, the delivery handed to an agent, the output. */
  datatype Transfer = Transfer(queue: seq<Building>, delivery: Option<Delivery>, output: Ledger)

  /**
    The outcome of `TransportToRecipients` on queue `q` whose first `k`
    entries are busy sites, with output contents `m`.
  */
  function Transported(q: seq<Building>, k: nat, m: Ledger, agentAvailable: bool): (t: Transfer)
    requires k <= |q|
    ensures |t.queue| == |q| - k
    ensures t.delivery.Some? ==> k < |q| && agentAvailable && t.delivery.value.target == q[k]
  {
    if k == |q| then Transfer([], None, m)
    else
      var r := q[k];
      var send := Sendable(m, r.productionCost);
      if send == [] then Transfer([r] + q[k + 1..], None, m)
      else if agentAvailable then Transfer(q[k + 1..] + [r], Some(Delivery(send, r)), RemovedAll(m, send))
      else Transfer(q[k + 1..] + [r], None, m)
  }

  /** Skipping a busy site at the head leaves the same outcome as starting after it. */
  lemma TransportedSkipsBusy(q: seq<Building>, k: nat, m: Ledger, agentAvailable: bool)
    requires |q| > 0 && k < |q|
    ensures Transported(q, k + 1, m, agentAvailable) == Transported(q[1..], k, m, agentAvailable)
  {
    if k + 1 < |q| {
      assert q[1..][k + 1..] == q[k + 2..];
    }
  }

  /**
    Every recipient after the busy head sites is still in the queue, exactly
    as often as before; one that is sent nothing goes back to the front, so the
    queue is as it was, and one that is sent something goes to the tail.
  */
  lemma TransportedKeepsRecipients(q: seq<Building>, k: nat, m: Ledger, agentAvailable: bool)
    requires k <= |q|
    ensures var t := Transported(q, k, m, agentAvailable);
            multiset(t.queue) == multiset(q[k..])
    ensures k < |q| && Sendable(m, q[k].productionCost) == [] ==>
              Transported(q, k, m, agentAvailable).queue == q[k..]
    ensures k < |q| && Sendable(m, q[k].productionCost) != [] ==>
              Transported(q, k, m, agentAvailable).queue == q[k + 1..] + [q[k]]
  {
    if k < |q| {
      assert q[k..] == [q[k]] + q[k + 1..];
    }
  }

  /**
    Only a delivery takes from the output: each type drops by its total in the
    delivered amounts, which are the recipient's sendable amounts. When every
    count was non-negative and the recipient names each type once, no count
    becomes negative.
  */
  lemma TransportedDebitsOutput(q: seq<Building>, k: nat, m: Ledger, agentAvailable: bool, kind: ResourceType)
    requires k <= |q|
    ensures var t := Transported(q, k, m, agentAvailable);
            && (t.delivery.Some? <==> k < |q| && agentAvailable && Sendable(m, q[k].productionCost) != [])
            && (t.delivery.None? ==> t.output == m)
            && (t.delivery.Some? ==>
                  && t.delivery.value.target == q[k]
                  && t.delivery.value.resources == Sendable(m, q[k].productionCost)
                  && Amount(t.output, kind) == Amount(m, kind) - TotalOf(t.delivery.value.resources, kind))
    ensures var t := Transported(q, k, m, agentAvailable);
            NonNegative(m) && (k < |q| ==> DistinctKinds(q[k].productionCost)) ==> NonNegative(t.output)
  {
    if k < |q| {
      var send := Sendable(m, q[k].productionCost);
      if send != [] && agentAvailable {
        RemovedAllAmounts(m, send, kind);
        if NonNegative(m) && DistinctKinds(q[k].productionCost) {
          SendableKeepsDistinctKinds(m, q[k].productionCost);
          RemovedAllStaysNonNegative(m, send);
        }
      }
    }
  }

  /** The buildings of a list of ranked candidates. */
  function Buildings(candidates: seq<Ranked>): (bs: seq<Building>)
    ensures |bs| == |candidates|
    ensures forall i :: 0 <= i < |candidates| ==> bs[i] == candidates[i].building
  {
    if candidates == [] then [] else [candidates[0].building] + Buildings(candidates[1..])
  }

  /**
    `ArchitectController.PlaceBuildingAt`, which is not part of this model:
    creates a building of the preset, hosted on the tile, and places it there.
  */
  method PlaceBuildingAt(grid: Tiles.Grid<Building>, t: Tiles.Coord, preset: Preset) returns (b: Building)
    requires grid.Valid()
    modifies grid
    ensures fresh(b) && b.preset == preset && b.constructs == None && b.tile == Some(t)
    ensures grid.content == old(grid.content)[t := Tiles.Built(b)]
  {
    b := new Building(preset);
    b.InitializeAfterInstantiation(t);
    grid.PlaceContent(t, Tiles.Built(b));
  }
}
