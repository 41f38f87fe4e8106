/**
 * `ResourceManager` (day16/coffee_machine/resource_manager.py): a dict from
 * resource to integer quantity that the manager updates in place.  Argument
 * dicts are association lists in iteration order; each operation that loops
 * over one is a method proved against a fold over that list, and the lemmas
 * below say what the fold means.
 */
module ResourceManagement {
  import opened Wrappers
  import opened Dicts
  import opened Resources

  type Stock = map<Resource, int>

  /** KeyError (absent resource), ValueError (too little stock, or a bad amount to add). */
  datatype StockError = Missing(resource: Resource) | Short(resource: Resource) | InvalidAmount(resource: Resource)

  /** A value handed to `add_resources`: an `int`, or anything else. */
  datatype Amount = Whole(n: int) | NotWhole

  /** The stock after a loop over an argument dict, and the error that stopped it, if any. */
  datatype Outcome = Outcome(stock: Stock, error: Option<StockError>)

  /** The stock holds `need.0` and at least `need.1` of it. */
  predicate Covers(stock: Stock, need: (Resource, int)) {
    need.0 in stock && stock[need.0] >= need.1
  }

  /** Position of the first requirement the stock does not cover (`|required|` when there is none). */
  function FirstShortIndex(stock: Stock, required: seq<(Resource, int)>): (i: nat)
    ensures i <= |required|
    ensures forall j :: 0 <= j < i ==> Covers(stock, required[j])
    ensures i < |required| ==> !Covers(stock, required[i])
  {
    if required == [] then 0
    else if !Covers(stock, required[0]) then 0
    else 1 + FirstShortIndex(stock, required[1..])
  }

  /** What `check_resources` answers: None when every requirement is covered, else the first one that is not. */
  function Shortfall(stock: Stock, required: seq<(Resource, int)>): (r: Option<Resource>)
    ensures r.None? <==> forall i :: 0 <= i < |required| ==> Covers(stock, required[i])
    ensures r.Some? ==> exists i :: (0 <= i < |required| && required[i].0 == r.value
                                     && !Covers(stock, required[i]) && forall j :: 0 <= j < i ==> Covers(stock, required[j]))
  {
    var i := FirstShortIndex(stock, required);
    if i == |required| then None else Some(required[i].0)
  }

  /** The `deduct_resources` loop: subtract entry by entry, stopping at the first absent or short one. */
  function Deducted(stock: Stock, used: seq<(Resource, int)>): Outcome
    decreases |used|
  {
    if used == [] then Outcome(stock, None)
    else
      var (r, amount) := used[0];
      if r !in stock then Outcome(stock, Some(Missing(r)))
      else if stock[r] < amount then Outcome(stock, Some(Short(r)))
      else Deducted(stock[r := stock[r] - amount], used[1..])
  }

  /** The `add_resources` loop: add entry by entry (creating unknown keys), stopping at the first bad amount. */
  function Added(stock: Stock, added: seq<(Resource, Amount)>): Outcome
    decreases |added|
  {
    if added == [] then Outcome(stock, None)
    else
      var (r, amount) := added[0];
      if amount.NotWhole? || amount.n < 0 then Outcome(stock, Some(InvalidAmount(r)))
      else Added(stock[r := if r in stock then stock[r] + amount.n else amount.n], added[1..])
  }

  /** `_get_unit`: grams for coffee, millilitres for everything else. */
  function Unit(r: Resource): (u: string)
    ensures u == "g" <==> r == Coffee
    ensures u == "ml" <==> r != Coffee
  {
    if r == Coffee then "g" else "ml"
  }

  class ResourceManager {
    var resources: Stock

    /** The manager keeps its own copy of the initial dict. */
    constructor (initialResources: Stock)
      ensures resources == initialResources
    {
      resources := initialResources;
    }

    /** `get_resources`: a copy of the current stock. */
    function GetResources(): (r: Stock)
      reads this
      ensures r.Keys == resources.Keys && forall k :: k in r ==> r[k] == resources[k]
    {
      resources
    }

    /** `has_resource`. */
    function HasResource(r: Resource): (b: bool)
      reads this
      ensures b <==> r in resources
    {
      r in resources
    }

    /** `check_resources`: a read-only scan for the first absent or short requirement. */
    method CheckResources(required: seq<(Resource, int)>) returns (missing: Option<Resource>)
      ensures missing == Shortfall(resources, required)
    {
      var i := 0;
      while i < |required|
        invariant 0 <= i <= |required|
        invariant forall j :: 0 <= j < i ==> Covers(resources, required[j])
      {
        var (resource, requiredAmount) := required[i];
        if resource !in resources {
          return Some(resource);
        }
        if resources[resource] < requiredAmount {
          return Some(resource);
        }
        i := i + 1;
      }
      return None;
    }

    /** `deduct_resources`: subtracts in place; an error leaves earlier entries subtracted. */
    method DeductResources(used: seq<(Resource, int)>) returns (error: Option<StockError>)
      modifies this
      ensures Outcome(resources, error) == Deducted(old(resources), used)
    {
      var i := 0;
      while i < |used|
        invariant 0 <= i <= |used|
        invariant Deducted(old(resources), used) == Deducted(resources, used[i..])
      {
        assert used[i..][1..] == used[i + 1..];
        var (resource, amount) := used[i];
        if resource !in resources {
          return Some(Missing(resource));
        }
        if resources[resource] < amount {
          return Some(Short(resource));
        }
        resources := resources[resource := resources[resource] - amount];
        i := i + 1;
      }
      return None;
    }

    /** `add_resources`: adds in place, creating unknown keys; an error leaves earlier entries added. */
    method AddResources(added: seq<(Resource, Amount)>) returns (error: Option<StockError>)
      modifies this
      ensures Outcome(resources, error) == Added(old(resources), added)
    {
      var i := 0;
      while i < |added|
        invariant 0 <= i <= |added|
        invariant Added(old(resources), added) == Added(resources, added[i..])
      {
        assert added[i..][1..] == added[i + 1..];
        var (resource, amount) := added[i];
        if amount.NotWhole? || amount.n < 0 {
          return Some(InvalidAmount(resource));
        }
        if resource in resources {
          resources := resources[resource := resources[resource] + amount.n];
        } else {
          resources := resources[resource := amount.n];
        }
        i := i + 1;
      }
      return None;
    }
  }

  // ---- what the deduction fold means ----

  /** Changing the stock at keys no requirement names does not move the first shortfall. */
  lemma {:induction false} ShortIndexFrame(s: Stock, t: Stock, required: seq<(Resource, int)>)
    requires forall j :: 0 <= j < |required| ==> (Covers(s, required[j]) <==> Covers(t, required[j]))
    ensures FirstShortIndex(s, required) == FirstShortIndex(t, required)
    decreases |required|
  {
    if required != [] && Covers(s, required[0]) {
      ShortIndexFrame(s, t, required[1..]);
    }
  }

  /**
   * For a dict of requirements, `deduct_resources` fails exactly when
   * `check_resources` reports a shortfall, and it fails at that resource:
   * KeyError when the resource is absent, ValueError when it is short.
   */
  lemma {:induction false} DeductFailsWhereCheckFails(s: Stock, used: seq<(Resource, int)>)
    requires DistinctKeys(used)
    ensures Deducted(s, used).error.None? <==> Shortfall(s, used).None?
    ensures Deducted(s, used).error.Some? ==>
      var r := Shortfall(s, used).value;
      Deducted(s, used).error.value == if r in s then Short(r) else Missing(r)
    decreases |used|
  {
    if used != [] && Covers(s, used[0]) {
      var (r, amount) := used[0];
      var t := s[r := s[r] - amount];
      DistinctTail(used);
      DeductFailsWhereCheckFails(t, used[1..]);
      ShortIndexFrame(s, t, used[1..]);
      assert FirstShortIndex(s, used) == 1 + FirstShortIndex(s, used[1..]);
      if Shortfall(t, used[1..]).Some? {
        var k := FirstShortIndex(t, used[1..]);
        assert used[1..][k].0 != r;
      }
    }
  }

  /**
   * A successful deduction lowers every listed resource by exactly its amount
   * and leaves every other resource, and the set of resources, unchanged.
   */
  lemma {:induction false} DeductExact(s: Stock, used: seq<(Resource, int)>)
    requires DistinctKeys(used) && Deducted(s, used).error.None?
    ensures Deducted(s, used).stock.Keys == s.Keys
    ensures forall i :: 0 <= i < |used| ==> used[i].0 in s && Deducted(s, used).stock[used[i].0] == s[used[i].0] - used[i].1
    ensures forall r :: r in s && (forall i :: 0 <= i < |used| ==> used[i].0 != r) ==> Deducted(s, used).stock[r] == s[r]
    decreases |used|
  {
    if used != [] {
      var (r, amount) := used[0];
      var t := s[r := s[r] - amount];
      DistinctTail(used);
      DeductExact(t, used[1..]);
      var after := Deducted(s, used).stock;
      forall i | 0 <= i < |used|
        ensures used[i].0 in s && after[used[i].0] == s[used[i].0] - used[i].1
      {
        if i > 0 {
          assert used[i] == used[1..][i - 1];
        }
      }
      forall x | x in s && (forall i :: 0 <= i < |used| ==> used[i].0 != x)
        ensures after[x] == s[x]
      {
        assert forall i :: 0 <= i < |used[1..]| ==> used[1..][i] == used[i + 1];
      }
    }
  }

  /** Deducting `a + b` is deducting `a`, then, if that succeeded, `b` from the result. */
  lemma {:induction false} DeductedAppend(s: Stock, a: seq<(Resource, int)>, b: seq<(Resource, int)>)
    ensures Deducted(s, a + b) ==
      if Deducted(s, a).error.None? then Deducted(Deducted(s, a).stock, b) else Deducted(s, a)
    decreases |a|
  {
    if a != [] {
      assert (a + b)[0] == a[0] && (a + b)[1..] == a[1..] + b;
      var (r, amount) := a[0];
      if r in s && s[r] >= amount {
        DeductedAppend(s[r := s[r] - amount], a[1..], b);
      }
    } else {
      assert a + b == b;
    }
  }

  /**
   * `deduct_resources` is not atomic: when entry `i` is the first that cannot
   * be deducted, the entries before it stay deducted.
   */
  lemma DeductNotAtomic(s: Stock, used: seq<(Resource, int)>, i: int)
    requires 0 <= i < |used|
    requires Deducted(s, used[..i]).error.None?
    requires !Covers(Deducted(s, used[..i]).stock, used[i])
    ensures Deducted(s, used).stock == Deducted(s, used[..i]).stock
    ensures Deducted(s, used).error.Some? && Deducted(s, used).error.value.resource == used[i].0
  {
    assert used == used[..i] + used[i..];
    DeductedAppend(s, used[..i], used[i..]);
  }

  /** No deduction takes a quantity below zero. */
  lemma {:induction false} DeductKeepsNonNegative(s: Stock, used: seq<(Resource, int)>)
    requires forall r :: r in s ==> s[r] >= 0
    ensures forall r :: r in Deducted(s, used).stock ==> Deducted(s, used).stock[r] >= 0
    decreases |used|
  {
    if used != [] {
      var (r, amount) := used[0];
      if r in s && s[r] >= amount {
        DeductKeepsNonNegative(s[r := s[r] - amount], used[1..]);
      }
    }
  }

  /** Deducting 50 water and then 300 milk from 300/200/100 fails on milk with the water already taken. */
  lemma DeductPartialExample()
    ensures var s := map[Water := 300, Milk := 200, Coffee := 100];
      Deducted(s, [(Water, 50), (Milk, 300), (Coffee, 15)]) == Outcome(s[Water := 250], Some(Short(Milk)))
  {
  }

  // ---- what the addition fold means ----

  predicate ValidAmount(a: Amount) {
    a.Whole? && a.n >= 0
  }

  /** `add_resources` succeeds exactly when every amount is a non-negative int; zero is accepted. */
  lemma {:induction false} AddSucceedsIffAmountsValid(s: Stock, added: seq<(Resource, Amount)>)
    ensures Added(s, added).error.None? <==> forall i :: 0 <= i < |added| ==> ValidAmount(added[i].1)
    decreases |added|
  {
    if added != [] {
      var (r, amount) := added[0];
      if ValidAmount(amount) {
        AddSucceedsIffAmountsValid(s[r := if r in s then s[r] + amount.n else amount.n], added[1..]);
        assert forall i :: 0 <= i < |added[1..]| ==> added[1..][i] == added[i + 1];
      }
    }
  }

  /** A successful addition ends with the old keys plus the added ones. */
  lemma {:induction false} AddedKeys(s: Stock, added: seq<(Resource, Amount)>)
    requires Added(s, added).error.None?
    ensures Added(s, added).stock.Keys == s.Keys + KeySet(added)
    decreases |added|
  {
    if added != [] {
      var (r, amount) := added[0];
      var t := s[r := if r in s then s[r] + amount.n else amount.n];
      AddedKeys(t, added[1..]);
      KeySetCons(added);
    }
  }

  /** A successful addition leaves every resource it does not list unchanged. */
  lemma {:induction false} AddedUnlisted(s: Stock, added: seq<(Resource, Amount)>, x: Resource)
    requires Added(s, added).error.None?
    requires x in s && forall i :: 0 <= i < |added| ==> added[i].0 != x
    ensures x in Added(s, added).stock && Added(s, added).stock[x] == s[x]
    decreases |added|
  {
    if added != [] {
      var (r, amount) := added[0];
      var t := s[r := if r in s then s[r] + amount.n else amount.n];
      assert added[0].0 != x;
      assert forall i :: 0 <= i < |added[1..]| ==> added[1..][i] == added[i + 1];
      AddedUnlisted(t, added[1..], x);
    }
  }

  /**
   * With distinct keys, a successful addition raises a listed resource by its
   * amount, or creates it with exactly that amount when it was absent.
   */
  lemma {:induction false} AddedListed(s: Stock, added: seq<(Resource, Amount)>, i: int)
    requires DistinctKeys(added) && Added(s, added).error.None? && 0 <= i < |added|
    ensures added[i].1.Whole? && added[i].0 in Added(s, added).stock
    ensures Added(s, added).stock[added[i].0] == (if added[i].0 in s then s[added[i].0] else 0) + added[i].1.n
    decreases |added|
  {
    var (r, amount) := added[0];
    var t := s[r := if r in s then s[r] + amount.n else amount.n];
    DistinctTail(added);
    if i > 0 {
      assert added[i] == added[1..][i - 1];
      AddedListed(t, added[1..], i - 1);
    } else if added[1..] != [] {
      AddedUnlisted(t, added[1..], r);
    }
  }

  /**
   * A successful addition raises every listed resource by its amount, creates
   * listed resources that were absent with exactly that amount, and leaves
   * every other resource unchanged.
   */
  lemma AddExact(s: Stock, added: seq<(Resource, Amount)>)
    requires DistinctKeys(added) && Added(s, added).error.None?
    ensures Added(s, added).stock.Keys == s.Keys + KeySet(added)
    ensures forall i :: 0 <= i < |added| ==>
      (added[i].1.Whole? && Added(s, added).stock[added[i].0] == (if added[i].0 in s then s[added[i].0] else 0) + added[i].1.n)
    ensures forall r :: r in s && (forall i :: 0 <= i < |added| ==> added[i].0 != r) ==> Added(s, added).stock[r] == s[r]
  {
    AddedKeys(s, added);
    forall i | 0 <= i < |added|
      ensures added[i].1.Whole? && Added(s, added).stock[added[i].0] == (if added[i].0 in s then s[added[i].0] else 0) + added[i].1.n
    {
      AddedListed(s, added, i);
    }
    forall x | x in s && (forall i :: 0 <= i < |added| ==> added[i].0 != x)
      ensures Added(s, added).stock[x] == s[x]
    {
      AddedUnlisted(s, added, x);
    }
  }

  /** Adding `a + b` is adding `a`, then, if that succeeded, `b` to the result. */
  lemma {:induction false} AddedAppend(s: Stock, a: seq<(Resource, Amount)>, b: seq<(Resource, Amount)>)
    ensures Added(s, a + b) ==
      if Added(s, a).error.None? then Added(Added(s, a).stock, b) else Added(s, a)
    decreases |a|
  {
    if a != [] {
      assert (a + b)[0] == a[0] && (a + b)[1..] == a[1..] + b;
      var (r, amount) := a[0];
      if ValidAmount(amount) {
        AddedAppend(s[r := if r in s then s[r] + amount.n else amount.n], a[1..], b);
      }
    } else {
      assert a + b == b;
    }
  }

  /** `add_resources` is not atomic either: entries before the first bad amount stay added. */
  lemma AddNotAtomic(s: Stock, added: seq<(Resource, Amount)>, i: int)
    requires 0 <= i < |added|
    requires forall j :: 0 <= j < i ==> ValidAmount(added[j].1)
    requires !ValidAmount(added[i].1)
    ensures Added(s, added) == Outcome(Added(s, added[..i]).stock, Some(InvalidAmount(added[i].0)))
  {
    assert added == added[..i] + added[i..];
    AddSucceedsIffAmountsValid(s, added[..i]);
    AddedAppend(s, added[..i], added[i..]);
  }
}
