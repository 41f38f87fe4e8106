/**
 * `CoffeeMachine` (day16/coffee_machine/coffee_machine.py): the order flow
 * that ties the menu, a resource ledger and the money ledger together.
 *
 * The machine calls `get_resource`, `set_resource` and `use_resource` on its
 * resource ledger.  `ResourceManager` defines none of them, so the machine is
 * modelled against the ledger those calls describe (`ResourceLedger` below):
 * one integer level per resource type, with `use_resource` failing
 * (ValueError) when the level is below the amount asked for.
 */
module Machine {
  import opened Wrappers
  import opened Dicts
  import opened Resources
  import opened Drinks
  import opened Coins
  import opened Money
  import opened Menus

  type Levels = map<Resource, int>

  /** Every resource type has a level. */
  ghost predicate Total(levels: Levels) {
    forall r: Resource :: r in levels
  }

  /** Exceptions that leave the machine's operations. */
  datatype MachineError =
    | InvalidDrink(name: string)                // InvalidDrinkError
    | InsufficientResources(resource: Resource) // raised by process_selection when a resource is short
    | UnknownIngredient(ingredient: string)     // ValueError from ResourceType(ingredient)
    | BrewFailed(name: string)                  // RuntimeError from make_coffee
    | DivisionByZero(ingredient: string)        // ZeroDivisionError: an ingredient amount of 0
    | Unbounded(name: string)                   // OverflowError: int(inf) for a drink without ingredients

  /** `process_payment`: True with the change handed back, or False. */
  datatype PaymentResult = Paid(change: nat) | Declined

  /** How `process_selection` ends when it raises nothing: a drink served, or payment too low. */
  datatype Order = Served(change: nat) | Cancelled

  /** A key handed to `refill_resources`: a `ResourceType`, or some other object. */
  datatype Key = Typed(resource: Resource) | Untyped(text: string)

  /** The levels after a loop over a dict, and whether the loop ran to its end. */
  datatype Run = Run(levels: Levels, completed: bool)

  /** The `get_status` dict: each resource's name with its level, and the earnings. */
  datatype Status = Status(resources: seq<(string, int)>, earnings: int)

  // ---- the resource ledger the machine is written against ----

  class ResourceLedger {
    var levels: Levels

    ghost predicate Valid()
      reads this
    {
      Total(levels)
    }

    constructor (initial: Levels)
      requires Total(initial)
      ensures Valid() && levels == initial
    {
      levels := initial;
    }

    /** `get_resource`. */
    function GetResource(r: Resource): (amount: int)
      reads this
      requires Valid()
      ensures amount == levels[r]
    {
      levels[r]
    }

    /** `set_resource`. */
    method SetResource(r: Resource, amount: int)
      requires Valid()
      modifies this
      ensures Valid() && levels == old(levels)[r := amount]
    {
      levels := levels[r := amount];
    }

    /** `use_resource`: takes `amount` of `r`, or fails and takes nothing when there is less. */
    method UseResource(r: Resource, amount: int) returns (ok: bool)
      requires Valid()
      modifies this
      ensures Valid()
      ensures ok <==> old(levels)[r] >= amount
      ensures levels == if ok then old(levels)[r := old(levels)[r] - amount] else old(levels)
    {
      ok := levels[r] >= amount;
      if ok {
        levels := levels[r := levels[r] - amount];
      }
    }
  }

  // ---- check_resources ----

  /** The ingredient names a known resource and its level covers the amount. */
  predicate Met(levels: Levels, ingredient: (string, int))
    requires Total(levels)
  {
    FromName(ingredient.0).Some? && levels[FromName(ingredient.0).value] >= ingredient.1
  }

  /** Position of the first ingredient that is unknown or under-stocked (`|ings|` when there is none). */
  function FirstUnmet(levels: Levels, ings: seq<(string, int)>): (i: nat)
    requires Total(levels)
    ensures i <= |ings|
    ensures forall j :: 0 <= j < i ==> Met(levels, ings[j])
    ensures i < |ings| ==> !Met(levels, ings[i])
  {
    if ings == [] then 0
    else if !Met(levels, ings[0]) then 0
    else 1 + FirstUnmet(levels, ings[1..])
  }

  /**
   * What `check_resources` yields for a recipe: ValueError at the first
   * ingredient that names no resource type, the first resource whose level is
   * below the requirement, or None when every ingredient is covered.
   */
  function Shortage(levels: Levels, ings: seq<(string, int)>): (r: Result<Option<Resource>, MachineError>)
    requires Total(levels)
    ensures r == Success(None) <==> forall i :: 0 <= i < |ings| ==> Met(levels, ings[i])
    ensures r.Success? && r.value.Some? ==>
      exists i :: (0 <= i < |ings| && FromName(ings[i].0) == Some(r.value.value)
                   && levels[r.value.value] < ings[i].1 && forall j :: 0 <= j < i ==> Met(levels, ings[j]))
    ensures r.Failure? ==>
      exists i :: (0 <= i < |ings| && r.error == UnknownIngredient(ings[i].0)
                   && FromName(ings[i].0).None? && forall j :: 0 <= j < i ==> Met(levels, ings[j]))
  {
    var i := FirstUnmet(levels, ings);
    if i == |ings| then Success(None)
    else match FromName(ings[i].0)
      case None => Failure(UnknownIngredient(ings[i].0))
      case Some(r) => Success(Some(r))
  }

  // ---- make_coffee ----

  /** The `make_coffee` loop: `use_resource` per ingredient, in order, stopping at the first failure. */
  function Brewed(levels: Levels, ings: seq<(string, int)>): (run: Run)
    requires Total(levels)
    ensures Total(run.levels)
    decreases |ings|
  {
    if ings == [] then Run(levels, true)
    else match FromName(ings[0].0)
      case None => Run(levels, false)
      case Some(r) =>
        if levels[r] < ings[0].1 then Run(levels, false)
        else Brewed(levels[r := levels[r] - ings[0].1], ings[1..])
  }

  /** The amount of resource `r` a recipe asks for (0 when it names no such ingredient). */
  function Need(ings: seq<(string, int)>, r: Resource): int {
    match Get(ings, Name(r))
    case Some(amount) => amount
    case None => 0
  }

  /**
   * Once `check_resources` has passed, `make_coffee` cannot fail, and it
   * lowers each resource by exactly what the recipe asks for: no more, no
   * less, and nothing for resources the recipe does not use.
   */
  lemma {:induction false} BrewAfterCheck(levels: Levels, ings: seq<(string, int)>)
    requires Total(levels) && DistinctKeys(ings)
    requires forall i :: 0 <= i < |ings| ==> Met(levels, ings[i])
    ensures Brewed(levels, ings).completed
    ensures forall r: Resource :: Brewed(levels, ings).levels[r] == levels[r] - Need(ings, r)
    decreases |ings|
  {
    if ings != [] {
      var (n, amount) := ings[0];
      var r0 := FromName(n).value;
      var after := levels[r0 := levels[r0] - amount];
      var rest := ings[1..];
      assert Met(levels, ings[0]);
      DistinctTail(ings);
      forall j | 0 <= j < |rest| ensures Met(after, rest[j]) {
        assert rest[j] == ings[j + 1];
        assert Met(levels, rest[j]);
      }
      BrewAfterCheck(after, rest);
      forall r: Resource ensures Brewed(levels, ings).levels[r] == levels[r] - Need(ings, r) {
        NeedStep(ings, r);
      }
    }
  }

  /**
   * Conversely, when some ingredient fails the check, `make_coffee` stops
   * early: with distinct names no earlier use touches that ingredient's
   * resource, so its `use_resource` (or its name lookup) still fails.
   */
  lemma {:induction false} BrewFailsWhereCheckFails(levels: Levels, ings: seq<(string, int)>, i: int)
    requires Total(levels) && DistinctKeys(ings)
    requires 0 <= i < |ings| && !Met(levels, ings[i])
    ensures !Brewed(levels, ings).completed
    decreases |ings|
  {
    if i > 0 && Met(levels, ings[0]) {
      var (n, amount) := ings[0];
      var r0 := FromName(n).value;
      var after := levels[r0 := levels[r0] - amount];
      var rest := ings[1..];
      DistinctTail(ings);
      assert rest[i - 1] == ings[i];
      assert FromName(ings[i].0).Some? ==> FromName(ings[i].0).value != r0;
      assert !Met(after, rest[i - 1]);
      BrewFailsWhereCheckFails(after, rest, i - 1);
    }
  }

  /** With distinct ingredient names, `make_coffee` completes exactly when `check_resources` finds nothing missing. */
  lemma BrewCompletesIffCheckPasses(levels: Levels, ings: seq<(string, int)>)
    requires Total(levels) && DistinctKeys(ings)
    ensures Brewed(levels, ings).completed <==> Shortage(levels, ings) == Success(None)
  {
    if Shortage(levels, ings) == Success(None) {
      BrewAfterCheck(levels, ings);
    } else {
      var i :| 0 <= i < |ings| && !Met(levels, ings[i]);
      BrewFailsWhereCheckFails(levels, ings, i);
    }
  }

  /** The first ingredient's amount counts for its own resource only; later ones never repeat its name. */
  lemma NeedStep(ings: seq<(string, int)>, r: Resource)
    requires DistinctKeys(ings) && |ings| > 0 && FromName(ings[0].0).Some?
    ensures Need(ings, r) ==
      if FromName(ings[0].0).value == r then ings[0].1 else Need(ings[1..], r)
    ensures FromName(ings[0].0).value == r ==> Need(ings[1..], r) == 0
  {
    DistinctTail(ings);
    FromNameOfName(r);
  }

  /** A failed `make_coffee` keeps every `use_resource` made before the failure. */
  lemma {:induction false} BrewedAppend(levels: Levels, a: seq<(string, int)>, b: seq<(string, int)>)
    requires Total(levels)
    ensures Brewed(levels, a + b) ==
      if Brewed(levels, a).completed then Brewed(Brewed(levels, a).levels, b) else Brewed(levels, a)
    decreases |a|
  {
    if a != [] {
      assert (a + b)[0] == a[0] && (a + b)[1..] == a[1..] + b;
      var r := FromName(a[0].0);
      if r.Some? && levels[r.value] >= a[0].1 {
        BrewedAppend(levels[r.value := levels[r.value] - a[0].1], a[1..], b);
      }
    } else {
      assert a + b == b;
    }
  }

  // ---- process_payment ----

  /** `_calculate_change`: what is handed back, so that cost and change make up the payment exactly. */
  function CalculateChange(payment: nat, cost: nat): (change: int)
    ensures cost + change == payment
    ensures change >= 0 <==> payment >= cost
  {
    payment - cost
  }

  // ---- refill_resources ----

  /** What `refill_resources` is evidently meant to do: add every positive amount under a resource type, skip the rest. */
  function Refilled(levels: Levels, entries: seq<(Key, int)>): (after: Levels)
    requires Total(levels)
    ensures Total(after)
    decreases |entries|
  {
    if entries == [] then levels
    else
      var (key, amount) := entries[0];
      if key.Untyped? || amount <= 0 then Refilled(levels, entries[1..])
      else Refilled(levels[key.resource := levels[key.resource] + amount], entries[1..])
  }

  /**
   * `refill_resources` as written: an entry whose key is not a `ResourceType`
   * makes the error handler itself read `resource_type.value`, and the
   * AttributeError that raises escapes the loop, leaving earlier entries
   * applied and later ones ignored.
   */
  function RefilledAsWritten(levels: Levels, entries: seq<(Key, int)>): (run: Run)
    requires Total(levels)
    ensures Total(run.levels)
    decreases |entries|
  {
    if entries == [] then Run(levels, true)
    else
      var (key, amount) := entries[0];
      if key.Untyped? then Run(levels, false)
      else if amount <= 0 then RefilledAsWritten(levels, entries[1..])
      else RefilledAsWritten(levels[key.resource := levels[key.resource] + amount], entries[1..])
  }

  /** What a refill adds to `r`: its amount when that is positive, else nothing. */
  function Supply(entries: seq<(Key, int)>, r: Resource): nat {
    match Get(entries, Typed(r))
    case Some(amount) => if amount > 0 then amount else 0
    case None => 0
  }

  /** A refill raises each resource by its positive amount, and by nothing otherwise. */
  lemma {:induction false} RefilledAddsSupply(levels: Levels, entries: seq<(Key, int)>)
    requires Total(levels) && DistinctKeys(entries)
    ensures forall r: Resource :: Refilled(levels, entries)[r] == levels[r] + Supply(entries, r)
    decreases |entries|
  {
    if entries != [] {
      var (key, amount) := entries[0];
      var rest := entries[1..];
      DistinctTail(entries);
      var next := if key.Untyped? || amount <= 0 then levels else levels[key.resource := levels[key.resource] + amount];
      RefilledAddsSupply(next, rest);
      forall r: Resource ensures Refilled(levels, entries)[r] == levels[r] + Supply(entries, r) {
        if key == Typed(r) {
          assert Get(rest, key).None?;
        }
      }
    }
  }

  /** Without foreign keys the code as written does exactly the intended refill. */
  lemma {:induction false} AsWrittenAgreesWithoutForeignKeys(levels: Levels, entries: seq<(Key, int)>)
    requires Total(levels)
    requires forall i :: 0 <= i < |entries| ==> entries[i].0.Typed?
    ensures RefilledAsWritten(levels, entries) == Run(Refilled(levels, entries), true)
    decreases |entries|
  {
    if entries != [] {
      var (key, amount) := entries[0];
      var next := if amount <= 0 then levels else levels[key.resource := levels[key.resource] + amount];
      assert forall i :: 0 <= i < |entries[1..]| ==> entries[1..][i] == entries[i + 1];
      AsWrittenAgreesWithoutForeignKeys(next, entries[1..]);
    }
  }

  /** The discrepancy: refilling {"water": 500, COFFEE: 100} raises before coffee is refilled. */
  lemma ForeignKeyAbortsRefill(levels: Levels)
    requires Total(levels)
    ensures var entries: seq<(Key, int)> := [(Untyped("water"), 500), (Typed(Coffee), 100)];
      RefilledAsWritten(levels, entries) == Run(levels, false)
      && Refilled(levels, entries) == levels[Coffee := levels[Coffee] + 100]
  {
    var entries: seq<(Key, int)> := [(Untyped("water"), 500), (Typed(Coffee), 100)];
    assert entries[1..] == [(Typed(Coffee), 100)];
    assert |entries[1..][1..]| == 0;
  }

  // ---- get_status ----

  /** The resources part of the `get_status` dict: each resource's name with its level, in enum order. */
  function StatusEntries(levels: Levels): seq<(string, int)>
    requires Total(levels)
  {
    [(Name(Water), levels[Water]), (Name(Milk), levels[Milk]), (Name(Coffee), levels[Coffee])]
  }

  lemma StatusLookup(levels: Levels)
    requires Total(levels)
    ensures |StatusEntries(levels)| == |AllResources|
    ensures forall i :: 0 <= i < |AllResources| ==> StatusEntries(levels)[i].0 == Name(AllResources[i])
    ensures forall r: Resource :: Get(StatusEntries(levels), Name(r)) == Some(levels[r])
  {
    var entries := StatusEntries(levels);
    forall i | 0 <= i < |AllResources| ensures entries[i].0 == Name(AllResources[i]) {
      if i == 0 {
      } else if i == 1 {
      } else {
        assert i == 2;
      }
    }
    assert DistinctKeys(entries);
    forall r: Resource ensures Get(entries, Name(r)) == Some(levels[r]) {
      match r
      case Water => GetListed(entries, 0);
      case Milk => GetListed(entries, 1);
      case Coffee => GetListed(entries, 2);
    }
  }

  // ---- calculate_possible_drinks ----

  /** Python's `//`: division rounding towards minus infinity. */
  function FloorDiv(a: int, b: int): (q: int)
    requires b != 0
    ensures b > 0 ==> q * b <= a < q * b + b
    ensures b < 0 ==> q * b >= a > q * b + b
  {
    if b > 0 then a / b else (-a) / (-b)
  }

  function Min(best: Option<int>, x: int): int {
    if best.Some? && best.value < x then best.value else x
  }

  /**
   * The inner loop of `calculate_possible_drinks`: the least `available //
   * amount` over a recipe's ingredients, None (infinity) for a recipe without
   * any; ValueError for an unknown ingredient, ZeroDivisionError for a zero
   * amount, whichever comes first.
   */
  function MinServings(levels: Levels, ings: seq<(string, int)>): Result<Option<int>, MachineError>
    requires Total(levels)
    decreases |ings|
  {
    if ings == [] then Success(None)
    else match MinServings(levels, ings[..|ings| - 1])
      case Failure(e) => Failure(e)
      case Success(best) =>
        var (ingredient, amount) := ings[|ings| - 1];
        match FromName(ingredient)
        case None => Failure(UnknownIngredient(ingredient))
        case Some(r) =>
          if amount == 0 then Failure(DivisionByZero(ingredient))
          else Success(Some(Min(best, FloorDiv(levels[r], amount))))
  }

  /** The outer loop: each drink's name with its servings, in menu order; `int(inf)` raises OverflowError. */
  function PossibleDrinks(levels: Levels, drinks: seq<Drink>): Result<seq<(string, int)>, MachineError>
    requires Total(levels)
    decreases |drinks|
  {
    if drinks == [] then Success([])
    else match PossibleDrinks(levels, drinks[..|drinks| - 1])
      case Failure(e) => Failure(e)
      case Success(counts) =>
        var d := drinks[|drinks| - 1];
        match MinServings(levels, d.ingredients)
        case Failure(e) => Failure(e)
        case Success(None) => Failure(Unbounded(d.name))
        case Success(Some(n)) => Success(counts + [(d.name, n)])
  }

  /** Once an ingredient has raised, later ingredients cannot change the outcome. */
  lemma {:induction false} MinServingsFailureSticks(levels: Levels, ings: seq<(string, int)>, k: nat)
    requires Total(levels) && k <= |ings| && MinServings(levels, ings[..k]).Failure?
    ensures MinServings(levels, ings) == MinServings(levels, ings[..k])
    decreases |ings| - k
  {
    if k < |ings| {
      assert ings[..k + 1][..k] == ings[..k];
      MinServingsFailureSticks(levels, ings, k + 1);
    } else {
      assert ings[..k] == ings;
    }
  }

  /** Once a drink has raised, later drinks cannot change the outcome. */
  lemma {:induction false} PossibleDrinksFailureSticks(levels: Levels, drinks: seq<Drink>, k: nat)
    requires Total(levels) && k <= |drinks| && PossibleDrinks(levels, drinks[..k]).Failure?
    ensures PossibleDrinks(levels, drinks) == PossibleDrinks(levels, drinks[..k])
    decreases |drinks| - k
  {
    if k < |drinks| {
      assert drinks[..k + 1][..k] == drinks[..k];
      PossibleDrinksFailureSticks(levels, drinks, k + 1);
    } else {
      assert drinks[..k] == drinks;
    }
  }

  lemma MulMonotone(x: int, y: int, b: nat)
    requires x <= y
    ensures x * b <= y * b
  {
    assert y * b - x * b == (y - x) * b;
  }

  lemma FloorDivBound(a: int, b: int, k: int)
    requires b > 0
    ensures k <= FloorDiv(a, b) <==> k * b <= a
  {
    var q := FloorDiv(a, b);
    if k <= q {
      MulMonotone(k, q, b);
    } else {
      MulMonotone(q + 1, k, b);
      assert (q + 1) * b == q * b + b;
    }
  }

  /**
   * For a recipe of known ingredients with positive amounts, the servings
   * count is the largest number of servings the levels support: `k` servings
   * fit (k times each amount is available) exactly when `k` is at most it.
   */
  lemma {:induction false} ServingsAreMaximal(levels: Levels, ings: seq<(string, int)>, k: int)
    requires Total(levels) && |ings| > 0
    requires forall i :: 0 <= i < |ings| ==> FromName(ings[i].0).Some? && ings[i].1 > 0
    ensures MinServings(levels, ings).Success? && MinServings(levels, ings).value.Some?
    ensures k <= MinServings(levels, ings).value.value <==>
      forall i :: 0 <= i < |ings| ==> k * ings[i].1 <= levels[FromName(ings[i].0).value]
    decreases |ings|
  {
    var init := ings[..|ings| - 1];
    var (ingredient, amount) := ings[|ings| - 1];
    var r := FromName(ingredient).value;
    FloorDivBound(levels[r], amount, k);
    if init != [] {
      assert forall i :: 0 <= i < |init| ==> init[i] == ings[i];
      ServingsAreMaximal(levels, init, k);
    }
  }

  // ---- the machine ----

  class CoffeeMachine {
    const menu: Menu
    const ledger: ResourceLedger
    const money: MoneyMachine

    ghost predicate Valid()
      reads menu, ledger
    {
      menu.Valid() && ledger.Valid()
    }

    constructor (menu: Menu, ledger: ResourceLedger, money: MoneyMachine)
      requires menu.Valid() && ledger.Valid()
      ensures this.menu == menu && this.ledger == ledger && this.money == money
      ensures Valid()
    {
      this.menu := menu;
      this.ledger := ledger;
      this.money := money;
    }

    /** `check_resources(name)`: reads the ledger, changes nothing. */
    method CheckResources(name: string) returns (r: Result<Option<Resource>, MachineError>)
      requires Valid()
      ensures name !in menu.drinks ==> r == Failure(InvalidDrink(name))
      ensures name in menu.drinks ==> r == Shortage(ledger.levels, menu.drinks[name].ingredients)
    {
      var drink := menu.FindDrink(name);
      if drink.None? {
        return Failure(InvalidDrink(name));
      }
      var ings := drink.value.ingredients;
      var i := 0;
      while i < |ings|
        invariant 0 <= i <= |ings|
        invariant forall j :: 0 <= j < i ==> Met(ledger.levels, ings[j])
      {
        var (ingredient, amount) := ings[i];
        var resourceType := FromName(ingredient);
        if resourceType.None? {
          return Failure(UnknownIngredient(ingredient));
        }
        var available := ledger.GetResource(resourceType.value);
        if available < amount {
          return Success(Some(resourceType.value));
        }
        i := i + 1;
      }
      return Success(None);
    }

    /**
     * `process_payment(name)`: reads coins; a payment below the price, or one
     * the console breaks off (an exception inside the `try`), is declined and
     * credits nothing; otherwise the price is credited once and the change is
     * handed back.
     */
    method ProcessPayment(name: string, entries: seq<Entry>) returns (r: Result<PaymentResult, MachineError>)
      requires Valid()
      modifies money
      ensures name !in menu.drinks ==> r == Failure(InvalidDrink(name))
      ensures name in menu.drinks ==>
        var cost := menu.drinks[name].price;
        var paid := Tendered(entries);
        r == if paid.None? || paid.value < cost then Success(Declined) else Success(Paid(paid.value - cost))
      ensures r.Success? && r.value.Paid? ==>
        name in menu.drinks && money.profit == old(money.profit) + menu.drinks[name].price
        && money.transactions == old(money.transactions) + 1
      ensures !(r.Success? && r.value.Paid?) ==>
        money.profit == old(money.profit) && money.transactions == old(money.transactions)
    {
      var drink := menu.FindDrink(name);
      if drink.None? {
        return Failure(InvalidDrink(name));
      }
      var cost := drink.value.price;
      var payment := ReadCoins(entries);
      if payment.None? {
        return Success(Declined);
      }
      if payment.value < cost {
        return Success(Declined);
      }
      var change := CalculateChange(payment.value, cost);
      money.AddMoney(cost);
      return Success(Paid(change));
    }

    /** `make_coffee(name)`: `use_resource` per ingredient; a failure part-way leaves earlier uses applied. */
    method MakeCoffee(name: string) returns (error: Option<MachineError>)
      requires Valid()
      modifies ledger
      ensures Valid()
      ensures name !in menu.drinks ==> error == Some(InvalidDrink(name)) && ledger.levels == old(ledger.levels)
      ensures name in menu.drinks ==>
        var run := Brewed(old(ledger.levels), menu.drinks[name].ingredients);
        ledger.levels == run.levels && error == if run.completed then None else Some(BrewFailed(name))
    {
      var drink := menu.FindDrink(name);
      if drink.None? {
        return Some(InvalidDrink(name));
      }
      var ings := drink.value.ingredients;
      var i := 0;
      while i < |ings|
        invariant 0 <= i <= |ings|
        invariant ledger.Valid()
        invariant Brewed(old(ledger.levels), ings) == Brewed(ledger.levels, ings[i..])
      {
        assert ings[i..][1..] == ings[i + 1..];
        var (ingredient, amount) := ings[i];
        var resourceType := FromName(ingredient);
        if resourceType.None? {
          return Some(BrewFailed(name));
        }
        var ok := ledger.UseResource(resourceType.value, amount);
        if !ok {
          return Some(BrewFailed(name));
        }
        i := i + 1;
      }
      return None;
    }

    /**
     * `process_selection(name)`: lookup, resource check, payment, then
     * `make_coffee`.  Whenever no drink is served, neither ledger changes;
     * when one is, each resource has dropped by exactly what the recipe
     * needs and the earnings have risen by exactly its price.
     */
    method ProcessSelection(selection: string, entries: seq<Entry>) returns (r: Result<Order, MachineError>)
      requires Valid()
      modifies ledger, money
      ensures Valid()
      ensures selection !in menu.drinks ==> r == Failure(InvalidDrink(selection))
      ensures selection in menu.drinks ==>
        var drink := menu.drinks[selection];
        var check := Shortage(old(ledger.levels), drink.ingredients);
        var paid := Tendered(entries);
        r == if check.Failure? then Failure(check.error)
             else if check.value.Some? then Failure(InsufficientResources(check.value.value))
             else if paid.None? || paid.value < drink.price then Success(Cancelled)
             else Success(Served(paid.value - drink.price))
      ensures !(r.Success? && r.value.Served?) ==>
        ledger.levels == old(ledger.levels)
        && money.profit == old(money.profit) && money.transactions == old(money.transactions)
      ensures r.Success? && r.value.Served? ==>
        selection in menu.drinks
        && (forall res: Resource :: ledger.levels[res] == old(ledger.levels)[res] - Need(menu.drinks[selection].ingredients, res))
        && money.profit == old(money.profit) + menu.drinks[selection].price
        && money.transactions == old(money.transactions) + 1
    {
      var drink := menu.FindDrink(selection);
      if drink.None? {
        return Failure(InvalidDrink(selection));
      }
      var missing := CheckResources(selection);
      if missing.Failure? {
        return Failure(missing.error);
      }
      if missing.value.Some? {
        return Failure(InsufficientResources(missing.value.value));
      }
      var payment := ProcessPayment(selection, entries);
      if !(payment.Success? && payment.value.Paid?) {
        return Success(Cancelled);
      }
      assert Shortage(ledger.levels, drink.value.ingredients) == Success(None);
      BrewAfterCheck(ledger.levels, drink.value.ingredients);
      var error := MakeCoffee(selection);
      if error.Some? {
        // make_coffee raises only when a resource runs short, which the check has excluded
        assert false;
      }
      return Success(Served(payment.value.change));
    }

    /** `refill_resources`, as intended: positive amounts under resource types are added, other entries skipped. */
    method RefillResources(entries: seq<(Key, int)>)
      requires Valid()
      modifies ledger
      ensures Valid()
      ensures ledger.levels == Refilled(old(ledger.levels), entries)
    {
      var i := 0;
      while i < |entries|
        invariant 0 <= i <= |entries|
        invariant ledger.Valid()
        invariant Refilled(old(ledger.levels), entries) == Refilled(ledger.levels, entries[i..])
      {
        assert entries[i..][1..] == entries[i + 1..];
        var (key, amount) := entries[i];
        if key.Typed? && amount > 0 {
          var current := ledger.GetResource(key.resource);
          ledger.SetResource(key.resource, current + amount);
        }
        i := i + 1;
      }
    }

    /** `get_status`: every resource's level under its name, in enum order, and the earnings. */
    function GetStatus(): (s: Status)
      reads ledger, money
      requires ledger.Valid()
      ensures s.earnings == money.profit
      ensures |s.resources| == |AllResources|
      ensures forall i :: 0 <= i < |AllResources| ==> s.resources[i].0 == Name(AllResources[i])
      ensures forall r: Resource :: Get(s.resources, Name(r)) == Some(ledger.levels[r])
    {
      StatusLookup(ledger.levels);
      Status(StatusEntries(ledger.levels), money.profit)
    }

    /** The inner loop of `calculate_possible_drinks`: the servings one recipe allows. */
    method MaxServings(ings: seq<(string, int)>) returns (r: Result<Option<int>, MachineError>)
      requires Valid()
      ensures r == MinServings(ledger.levels, ings)
    {
      var maxServings: Option<int> := None;
      var i := 0;
      while i < |ings|
        invariant 0 <= i <= |ings|
        invariant MinServings(ledger.levels, ings[..i]) == Success(maxServings)
      {
        assert ings[..i + 1][..i] == ings[..i];
        var (ingredient, amount) := ings[i];
        var resourceType := FromName(ingredient);
        if resourceType.None? {
          MinServingsFailureSticks(ledger.levels, ings, i + 1);
          return Failure(UnknownIngredient(ingredient));
        }
        var available := ledger.GetResource(resourceType.value);
        if amount == 0 {
          MinServingsFailureSticks(ledger.levels, ings, i + 1);
          return Failure(DivisionByZero(ingredient));
        }
        var servings := FloorDiv(available, amount);
        maxServings := Some(Min(maxServings, servings));
        i := i + 1;
      }
      assert ings[..i] == ings;
      return Success(maxServings);
    }

    /** `calculate_possible_drinks`: read-only; each drink with the servings the current levels allow. */
    method CalculatePossibleDrinks() returns (r: Result<seq<(string, int)>, MachineError>)
      requires Valid()
      ensures r == PossibleDrinks(ledger.levels, menu.Drinks())
    {
      var drinks := menu.Drinks();
      var possible: seq<(string, int)> := [];
      var k := 0;
      while k < |drinks|
        invariant 0 <= k <= |drinks|
        invariant PossibleDrinks(ledger.levels, drinks[..k]) == Success(possible)
      {
        assert drinks[..k + 1][..k] == drinks[..k];
        var drink := drinks[k];
        var maxServings := MaxServings(drink.ingredients);
        if maxServings.Failure? {
          PossibleDrinksFailureSticks(ledger.levels, drinks, k + 1);
          return Failure(maxServings.error);
        }
        if maxServings.value.None? {
          PossibleDrinksFailureSticks(ledger.levels, drinks, k + 1);
          return Failure(Unbounded(drink.name));
        }
        possible := possible + [(drink.name, maxServings.value.value)];
        k := k + 1;
      }
      assert drinks[..k] == drinks;
      return Success(possible);
    }
  }
}
