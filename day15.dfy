/**
 * The first, procedural coffee machine (day15/my_main.py): a fixed menu, a
 * global stock of water, milk and coffee that serving a drink lowers in
 * place, and a running money total threaded through `process_command`.
 * Money is counted in cents; the menu's dollar costs 1.5, 2.5 and 3.0 become
 * 150, 250 and 300.
 */
module SimpleMachine {
  import opened Wrappers
  import opened Dicts
  import opened Coins

  /** A menu entry: the ingredients in dict order and the cost in cents. */
  datatype Recipe = Recipe(ingredients: seq<(string, int)>, cost: nat)

  /** `MENU`. */
  const Menu: map<string, Recipe> := map[
    "espresso" := Recipe([("water", 50), ("coffee", 18)], 150),
    "latte" := Recipe([("water", 200), ("milk", 150), ("coffee", 24)], 250),
    "cappuccino" := Recipe([("water", 250), ("milk", 100), ("coffee", 24)], 300)
  ]

  /** The keys of `RESOURCES`. */
  const Stocked: set<string> := {"water", "milk", "coffee"}

  /** Every recipe names each stocked item at most once, and only stocked items. */
  lemma MenuWellFormed(drink: string)
    requires drink in Menu
    ensures DistinctKeys(Menu[drink].ingredients)
    ensures forall i :: 0 <= i < |Menu[drink].ingredients| ==> Menu[drink].ingredients[i].0 in Stocked
  {
  }

  /** Every ingredient of a recipe is in stock in at least the amount it needs. */
  predicate Enough(resources: map<string, int>, ings: seq<(string, int)>)
  {
    forall i :: 0 <= i < |ings| ==> ings[i].0 in resources && resources[ings[i].0] >= ings[i].1
  }

  /** The `make_coffee` loop: each listed item lowered by its amount, in order. */
  function Subtracted(resources: map<string, int>, ings: seq<(string, int)>): (after: map<string, int>)
    requires forall i :: 0 <= i < |ings| ==> ings[i].0 in resources
    ensures after.Keys == resources.Keys
    decreases |ings|
  {
    if ings == [] then resources
    else
      var (item, amount) := ings[0];
      Subtracted(resources[item := resources[item] - amount], ings[1..])
  }

  /** One step of the `make_coffee` loop. */
  lemma SubtractedStep(resources: map<string, int>, ings: seq<(string, int)>, i: nat)
    requires i < |ings| && forall j :: 0 <= j < |ings| ==> ings[j].0 in resources
    ensures Subtracted(resources, ings[i..]) ==
      Subtracted(resources[ings[i].0 := resources[ings[i].0] - ings[i].1], ings[i + 1..])
  {
    assert ings[i..][1..] == ings[i + 1..];
  }

  /** What a recipe takes of `item`: its listed amount, or nothing. */
  function Taken(ings: seq<(string, int)>, item: string): int {
    match Get(ings, item)
    case Some(amount) => amount
    case None => 0
  }

  /** `make_coffee` lowers every item by exactly what the recipe lists and leaves the others alone. */
  lemma {:induction false} SubtractedExact(resources: map<string, int>, ings: seq<(string, int)>)
    requires DistinctKeys(ings)
    requires forall i :: 0 <= i < |ings| ==> ings[i].0 in resources
    ensures forall item :: item in resources ==> Subtracted(resources, ings)[item] == resources[item] - Taken(ings, item)
    decreases |ings|
  {
    if ings != [] {
      var (first, amount) := ings[0];
      var rest := ings[1..];
      DistinctTail(ings);
      assert forall i :: 0 <= i < |rest| ==> rest[i] == ings[i + 1];
      SubtractedExact(resources[first := resources[first] - amount], rest);
      forall item | item in resources
        ensures Subtracted(resources, ings)[item] == resources[item] - Taken(ings, item)
      {
        if item == first {
          assert Get(rest, first).None?;
        }
      }
    }
  }

  /** A drink served only after `check_resources` passed leaves no level negative. */
  lemma ServingKeepsStockNonNegative(resources: map<string, int>, ings: seq<(string, int)>)
    requires DistinctKeys(ings) && Enough(resources, ings)
    requires forall item :: item in resources ==> resources[item] >= 0
    ensures forall item :: item in resources ==> Subtracted(resources, ings)[item] >= 0
  {
    SubtractedExact(resources, ings);
    forall item | item in resources ensures Subtracted(resources, ings)[item] >= 0 {
      match Get(ings, item)
      case None =>
      case Some(amount) =>
        var i :| 0 <= i < |ings| && ings[i] == (item, amount);
    }
  }

  /** `check_transaction`: the money inserted is accepted exactly when it covers the drink's cost. */
  function CheckTransaction(drink: string, inserted: nat): (ok: bool)
    requires drink in Menu
    ensures ok <==> inserted - Menu[drink].cost >= 0
  {
    inserted >= Menu[drink].cost
  }

  class CoffeeMachine {
    /** `RESOURCES`. */
    var resources: map<string, int>

    ghost predicate Valid()
      reads this
    {
      resources.Keys == Stocked
    }

    /** The stock the machine starts with: 300 ml water, 200 ml milk, 100 g coffee. */
    constructor ()
      ensures Valid()
      ensures resources == map["water" := 300, "milk" := 200, "coffee" := 100]
    {
      resources := map["water" := 300, "milk" := 200, "coffee" := 100];
    }

    /** `check_resources`: reads the stock, changes nothing. */
    method CheckResources(drink: string) returns (ok: bool)
      requires Valid() && drink in Menu
      ensures ok <==> Enough(resources, Menu[drink].ingredients)
    {
      MenuWellFormed(drink);
      var ings := Menu[drink].ingredients;
      var i := 0;
      while i < |ings|
        invariant 0 <= i <= |ings|
        invariant Enough(resources, ings[..i])
      {
        var (item, amount) := ings[i];
        if resources[item] < amount {
          return false;
        }
        assert ings[..i + 1] == ings[..i] + [ings[i]];
        i := i + 1;
      }
      assert ings[..i] == ings;
      return true;
    }

    /** `make_coffee`: lowers the stock in place by the drink's recipe. */
    method MakeCoffee(drink: string)
      requires Valid() && drink in Menu
      modifies this
      ensures Valid()
      ensures resources == Subtracted(old(resources), Menu[drink].ingredients)
    {
      MenuWellFormed(drink);
      Use(Menu[drink].ingredients);
    }

    /** The loop of `make_coffee`: each listed item lowered by its amount, one at a time. */
    method Use(ings: seq<(string, int)>)
      requires forall j :: 0 <= j < |ings| ==> ings[j].0 in resources
      modifies this
      ensures resources.Keys == old(resources).Keys
      ensures resources == Subtracted(old(resources), ings)
    {
      var i := 0;
      while i < |ings|
        invariant 0 <= i <= |ings|
        invariant resources.Keys == old(resources).Keys
        invariant Subtracted(old(resources), ings) == Subtracted(resources, ings[i..])
      {
        var (item, amount) := ings[i];
        SubtractedStep(resources, ings, i);
        resources := resources[item := resources[item] - amount];
        i := i + 1;
      }
    }

    /**
     * `process_command`: "off" stops the machine, "report" and unknown
     * commands change nothing, and a drink is served (stock lowered, cost
     * added to the money) only when the stock covers it and the coins
     * inserted cover its cost.  None stands for the end of input while
     * reading coins, which escapes the function.
     */
    method ProcessCommand(command: string, money: int, entries: seq<Entry>) returns (r: Option<(bool, int)>)
      requires Valid()
      modifies this
      ensures Valid()
      ensures command == "off" ==> r == Some((false, money))
      ensures command != "off" && command !in Menu ==> r == Some((true, money))
      ensures command != "off" && command in Menu ==>
        var recipe := Menu[command];
        var paid := Tendered(entries);
        r == if !Enough(old(resources), recipe.ingredients) then Some((true, money))
             else if paid.None? then None
             else if paid.value < recipe.cost then Some((true, money))
             else Some((true, money + recipe.cost))
      ensures r.Some? && r.value.1 != money ==>
        command in Menu && resources == Subtracted(old(resources), Menu[command].ingredients)
      ensures !(r.Some? && r.value.1 != money) ==> resources == old(resources)
      ensures (forall item :: item in old(resources) ==> old(resources)[item] >= 0) ==>
        forall item :: item in resources ==> resources[item] >= 0
    {
      if command == "off" {
        return Some((false, money));
      } else if command == "report" {
        return Some((true, money));
      } else if command in Menu {
        var stocked := CheckResources(command);
        if stocked {
          var payment := ReadCoins(entries);
          if payment.None? {
            return None;
          }
          if CheckTransaction(command, payment.value) {
            MenuWellFormed(command);
            if forall item :: item in resources ==> resources[item] >= 0 {
              ServingKeepsStockNonNegative(resources, Menu[command].ingredients);
            }
            MakeCoffee(command);
            return Some((true, money + Menu[command].cost));
          }
        }
      }
      return Some((true, money));
    }
  }
}
