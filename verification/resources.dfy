/**
  The resource bookkeeping of a building: the `Resource` amounts that recipes
  and deliveries are written in, and `Building.Storage`, a ledger from resource
  type to count held in a dictionary.

  The dictionary semantics are stated once, as functions on
  `map<ResourceType, int>`; the class `Storage` updates its `contents` in place
  and is specified against them.
*/
module Resources {

  /** The game's resource type enumeration, by its underlying value. */
  type ResourceType = nat

  /** An amount of one resource type, as in a recipe, a storage or a delivery. */
  datatype Resource = Resource(kind: ResourceType, amount: int)

  /** The `Contents` dictionary of a storage. */
  type Ledger = map<ResourceType, int>

  /** What `Storage.Get` returns: the count held, and 0 for a type never added. */
  function Amount(m: Ledger, k: ResourceType): int
  {
    if k in m then m[k] else 0
  }

  /** `Storage.Add`: raises the count of one type, creating its entry when absent. */
  function Added(m: Ledger, r: Resource): (m': Ledger)
    ensures m'.Keys == m.Keys + {r.kind}
    ensures Amount(m', r.kind) == Amount(m, r.kind) + r.amount
    ensures forall k :: k != r.kind ==> Amount(m', k) == Amount(m, k)
  {
    if r.kind in m then m[r.kind := m[r.kind] + r.amount] else m[r.kind := r.amount]
  }

  /** `Storage.Remove`: lowers the count of a type that has an entry (an absent one would throw). */
  function Removed(m: Ledger, r: Resource): (m': Ledger)
    requires r.kind in m
    ensures m'.Keys == m.Keys
    ensures Amount(m', r.kind) == Amount(m, r.kind) - r.amount
    ensures forall k :: k != r.kind ==> Amount(m', k) == Amount(m, k)
  {
    m[r.kind := m[r.kind] - r.amount]
  }

  /**
    `Storage.HasResourceRequired`: the type has an entry holding at least the
    full amount. A type without an entry is never held, not even for amount 0.
  */
  predicate Holds(m: Ledger, r: Resource)
  {
    r.kind in m && m[r.kind] - r.amount >= 0
  }

  /** `Storage.HasResourcesRequired`, as a specification: every amount is held. */
  predicate HoldsAll(m: Ledger, rs: seq<Resource>)
  {
    forall i :: 0 <= i < |rs| ==> Holds(m, rs[i])
  }

  /** Every type of `rs` has an entry, so that removing them cannot throw. */
  predicate KindsIn(m: Ledger, rs: seq<Resource>)
  {
    forall i :: 0 <= i < |rs| ==> rs[i].kind in m
  }

  /** No two amounts in `rs` are of the same type. */
  predicate DistinctKinds(rs: seq<Resource>)
  {
    forall i, j :: 0 <= i < j < |rs| ==> rs[i].kind != rs[j].kind
  }

  /** No count in the ledger is negative. */
  predicate NonNegative(m: Ledger)
  {
    forall k :: k in m ==> m[k] >= 0
  }

  /** The sum of the amounts of type `k` in `rs`. */
  function TotalOf(rs: seq<Resource>, k: ResourceType): int
  {
    if rs == [] then 0
    else TotalOf(rs[..|rs| - 1], k) + (if rs[|rs| - 1].kind == k then rs[|rs| - 1].amount else 0)
  }

  /** The types that occur in `rs`. */
  function KindsOf(rs: seq<Resource>): set<ResourceType>
  {
    set i | 0 <= i < |rs| :: rs[i].kind
  }

  /** `Building.AddToStorage`: the amounts added one after the other, in order. */
  function AddedAll(m: Ledger, rs: seq<Resource>): Ledger
  {
    if rs == [] then m else Added(AddedAll(m, rs[..|rs| - 1]), rs[|rs| - 1])
  }

  /** `Building.RemoveFromStorage`: the amounts removed one after the other, in order. */
  function RemovedAll(m: Ledger, rs: seq<Resource>): (m': Ledger)
    requires KindsIn(m, rs)
    ensures m'.Keys == m.Keys
  {
    if rs == [] then m else Removed(RemovedAll(m, rs[..|rs| - 1]), rs[|rs| - 1])
  }

  /**
    The amounts of `costs` that `m` holds in full, in their order: what a
    provider's output can send for a recipient's production cost.
  */
  function Sendable(m: Ledger, costs: seq<Resource>): (s: seq<Resource>)
    ensures |s| <= |costs|
    ensures HoldsAll(m, s)
  {
    if costs == [] then []
    else Sendable(m, costs[..|costs| - 1]) + (if Holds(m, costs[|costs| - 1]) then [costs[|costs| - 1]] else [])
  }

  /** The sendable list keeps exactly the held amounts of the cost list, each as often as there. */
  lemma {:induction false} SendableFilters(m: Ledger, costs: seq<Resource>)
    ensures forall r :: multiset(Sendable(m, costs))[r] == if Holds(m, r) then multiset(costs)[r] else 0
  {
    if costs != [] {
      var front := costs[..|costs| - 1];
      var last := costs[|costs| - 1];
      assert costs == front + [last];
      SendableFilters(m, front);
    }
  }

  /** A cost list naming each type once yields a sendable list that names each type once. */
  lemma {:induction false} SendableKeepsDistinctKinds(m: Ledger, costs: seq<Resource>)
    requires DistinctKinds(costs)
    ensures DistinctKinds(Sendable(m, costs))
  {
    if costs != [] {
      var front := costs[..|costs| - 1];
      var last := costs[|costs| - 1];
      SendableKeepsDistinctKinds(m, front);
      SendableFilters(m, front);
      var s := Sendable(m, front);
      forall x | x in s ensures x.kind != last.kind {
        assert multiset(s)[x] > 0;
        var i :| 0 <= i < |front| && front[i] == x;
      }
    }
  }

  /** Adding a list of amounts raises each type by its total in the list, and creates their entries. */
  lemma {:induction false} AddedAllAmounts(m: Ledger, rs: seq<Resource>, k: ResourceType)
    ensures AddedAll(m, rs).Keys == m.Keys + KindsOf(rs)
    ensures Amount(AddedAll(m, rs), k) == Amount(m, k) + TotalOf(rs, k)
  {
    if rs != [] {
      var front := rs[..|rs| - 1];
      AddedAllAmounts(m, front, k);
      assert KindsOf(rs) == KindsOf(front) + {rs[|rs| - 1].kind} by {
        assert forall i :: 0 <= i < |front| ==> front[i] == rs[i];
      }
    }
  }

  /** Removing a list of amounts lowers each type by its total in the list and keeps the entries. */
  lemma {:induction false} RemovedAllAmounts(m: Ledger, rs: seq<Resource>, k: ResourceType)
    requires KindsIn(m, rs)
    ensures Amount(RemovedAll(m, rs), k) == Amount(m, k) - TotalOf(rs, k)
  {
    if rs != [] {
      RemovedAllAmounts(m, rs[..|rs| - 1], k);
    }
  }

  /** With distinct types, the total of a type is the amount of its one entry, or 0 without one. */
  lemma {:induction false} TotalOfDistinct(rs: seq<Resource>, k: ResourceType)
    requires DistinctKinds(rs)
    ensures forall i :: 0 <= i < |rs| && rs[i].kind == k ==> TotalOf(rs, k) == rs[i].amount
    ensures k !in KindsOf(rs) ==> TotalOf(rs, k) == 0
  {
    if rs != [] {
      var front := rs[..|rs| - 1];
      TotalOfDistinct(front, k);
      assert forall i :: 0 <= i < |front| ==> front[i] == rs[i];
      if k !in KindsOf(front) {
        assert forall i :: 0 <= i < |front| ==> front[i].kind != k;
      }
    }
  }

  /**
    A removal guarded by the sufficiency check leaves no count negative, when
    the removed amounts are of distinct types.
  */
  lemma RemovedAllStaysNonNegative(m: Ledger, rs: seq<Resource>)
    requires NonNegative(m) && HoldsAll(m, rs) && DistinctKinds(rs)
    ensures KindsIn(m, rs)
    ensures NonNegative(RemovedAll(m, rs))
  {
    forall k | k in RemovedAll(m, rs) ensures RemovedAll(m, rs)[k] >= 0 {
      RemovedAllAmounts(m, rs, k);
      TotalOfDistinct(rs, k);
      if k in KindsOf(rs) {
        var i :| 0 <= i < |rs| && rs[i].kind == k;
        assert Holds(m, rs[i]);
      }
    }
  }

  /** Adding amounts that are not negative leaves no count negative. */
  lemma {:induction false} AddedAllStaysNonNegative(m: Ledger, rs: seq<Resource>)
    requires NonNegative(m)
    requires forall i :: 0 <= i < |rs| ==> rs[i].amount >= 0
    ensures NonNegative(AddedAll(m, rs))
  {
    if rs != [] {
      AddedAllStaysNonNegative(m, rs[..|rs| - 1]);
    }
  }

  /**
    The sufficiency check tests each amount on its own, so a list naming one
    type twice can pass it and still overdraw: 4 units pass for 3 and for 2,
    and removing both leaves -1.
  */
  lemma RepeatedKindCanOverdraw()
    ensures var m := map[0 := 4];
            var rs := [Resource(0, 3), Resource(0, 2)];
            HoldsAll(m, rs) && Amount(RemovedAll(m, rs), 0) == -1
  {
    var m := map[0 := 4];
    var rs := [Resource(0, 3), Resource(0, 2)];
    assert rs[..1] == [Resource(0, 3)];
    assert rs[..1][..0] == [];
  }

  /** `Building.Storage`: a dictionary from resource type to count, updated in place. */
  class Storage {
    var contents: Ledger

    /** Creates a storage and adds the initial amounts to it, one after the other. */
    constructor (initialStorage: seq<Resource>)
      ensures contents == AddedAll(map[], initialStorage)
    {
      contents := map[];
      new;
      var i := 0;
      while i < |initialStorage|
        invariant 0 <= i <= |initialStorage|
        invariant contents == AddedAll(map[], initialStorage[..i])
      {
        assert initialStorage[..i + 1][..i] == initialStorage[..i];
        Add(initialStorage[i]);
        i := i + 1;
      }
      assert initialStorage[..i] == initialStorage;
    }

    /** The count held of a type, 0 when absent. */
    function Get(k: ResourceType): (n: int)
      reads this
      ensures k in contents ==> n == contents[k]
      ensures k !in contents ==> n == 0
    {
      Amount(contents, k)
    }

    /** Whether the full amount is held. */
    predicate HasResourceRequired(r: Resource): (ok: bool)
      reads this
      ensures ok <==> r.kind in contents && Get(r.kind) >= r.amount
    {
      Holds(contents, r)
    }

    /** Whether every amount is held in full; stops at the first that is not. */
    method HasResourcesRequired(required: seq<Resource>) returns (ok: bool)
      ensures ok == HoldsAll(contents, required)
    {
      var i := 0;
      while i < |required|
        invariant 0 <= i <= |required|
        invariant forall j :: 0 <= j < i ==> Holds(contents, required[j])
      {
        if !HasResourceRequired(required[i]) {
          return false;
        }
        i := i + 1;
      }
      return true;
    }

    method Add(r: Resource)
      modifies this
      ensures contents == Added(old(contents), r)
    {
      if r.kind in contents {
        contents := contents[r.kind := contents[r.kind] + r.amount];
      } else {
        contents := contents[r.kind := r.amount];
      }
    }

    /** The entry must exist: the dictionary indexer throws on a missing key. */
    method Remove(r: Resource)
      requires r.kind in contents
      modifies this
      ensures contents == Removed(old(contents), r)
    {
      contents := contents[r.kind := contents[r.kind] - r.amount];
    }
  }
}
