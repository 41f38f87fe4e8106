# Coffee machine, modelled in Dafny

This project models the coffee-vending logic of a Python exercise repository. It has two machines:

- **The day-16 machine** (`day16/coffee_machine/`) is object-oriented. It has an immutable `Drink` record, a `ResourceManager` holding stock levels, a `MoneyMachine` holding profit and transaction count in two-place decimals, and a `Menu` built from parsed records. A `CoffeeMachine` takes an order from lookup through resource check, payment and brewing. It also refills stock, reports status and computes how many servings of each drink the stock allows.
- **The day-15 machine** (`day15/my_main.py`) is its procedural predecessor. It has a fixed menu, a global stock dict that serving a drink lowers in place, and a money total threaded through `process_command`.

The model keeps each part in its source form:

- **Pure code** (drink construction and formatting, the enum lookup) becomes datatypes, functions and lemmas.
- **Code that updates state** (`ResourceManager`, `MoneyMachine`, `Menu`, `CoffeeMachine` and the day-15 stock) becomes classes. Their methods have `modifies` clauses and loops, and each is proved against a specification function:
  - a fold over the argument dict, such as `Deducted`, `Added`, `Loaded`, `Brewed`, `Refilled` or `Subtracted`;
  - or a query over the state, such as `Shortfall`, `Shortage`, `Tendered` or `PossibleDrinks`.

  Lemmas then state what those functions mean: exact per-key effects, error conditions in both directions, non-atomicity, and preserved non-negativity.

Modelling conventions:

- **Money is integer cents.** For example, 2.50 is 250. The source's `Decimal` arithmetic at two places is exact on cents. The one value that arrives as an arbitrary float, the initial profit, is a `real` rounded half-up to cents.
- **Dicts are association lists.** A Python dict is a sequence of (key, value) pairs in iteration order with distinct keys (module `Dicts`).
- **Keyboard input is a sequence of answers.** Each answer is a number or something that is not a number. Running out of answers stands for the EOFError that `input()` raises at end of input.
- **The day-16 machine uses an abstract ledger.** `CoffeeMachine` calls `get_resource`, `set_resource` and `use_resource` on its resource manager. `ResourceManager` defines none of these; only the test doubles in `day16/coffee_machine/test_coffee_machine.py:11-17` provide them. So the machine is modelled against `Machine.ResourceLedger`, an abstract ledger with exactly those operations:
  - one integer level for each resource type;
  - `use_resource` raises ValueError, and takes nothing, when the level is below the amount.

  The other side of the same interface mismatch:
  - The machine reads `drink.cost` (`coffee_machine.py:130`), but a `Drink` has only `price`. `cost` exists only on the test doubles. The model reads the price.
  - `menu.get_drinks()` (`coffee_machine.py:317`) is not defined by `Menu` either. It is modelled as iteration over the menu (`Menu.__iter__`, load order).
- **The shortage exception takes the wrong arguments.** `InsufficientResourcesError` is raised with one argument (`coffee_machine.py:93`), but its constructor takes three (`coffee_machine.py:18`), so Python raises TypeError in its place. The model records the outcome as the failure `InsufficientResources(resource)`: the order is refused and no state changes, whichever exception carries it.
- **Deduction is not atomic.** An order-fulfilment design would deduct all-or-nothing. The code does not: `deduct_resources` and `add_resources` stop at the first bad entry and keep earlier entries applied. The model follows the code, and `DeductNotAtomic` and `AddNotAtomic` state this.
- **Order of effects in `process_selection`.** The money ledger is credited inside `process_payment`, before `make_coffee` uses any resource. The model keeps that order. `Machine.BrewAfterCheck` proves that once the resource check has passed, brewing cannot fail. So an order never ends with money credited and no drink served.

## Model

| member | source | states |
|---|---|---|
| Dicts.Get | day16/coffee_machine/menu.py:54-55 | `d.get(key)` is None exactly when no entry has the key; otherwise it is a value listed under the key |
| Dicts.GetListed | day16/coffee_machine/menu.py:54-55 | with distinct keys, looking up a listed key gives exactly the value beside it |
| Drinks.NewDrink | day16/coffee_machine/drink.py:4-11 | construction succeeds iff the ingredients are non-empty and the price is not negative; empty ingredients are reported first, then a negative price; a price of zero is accepted; on success name, ingredients and price are the arguments unchanged |
| Drinks.Capitalize | day16/coffee_machine/drink.py:13-14 | `str.capitalize` on ASCII: same length, first character upper-cased, every other character lower-cased |
| Drinks.LowerAll | day16/coffee_machine/drink.py:13-14 | every character lower-cased, length kept |
| Drinks.NatToString | day16/coffee_machine/drink.py:13-14 | a non-empty string of decimal digits without leading zeros, a single digit exactly for numbers below 10 |
| Drinks.DecimalValueOfNatToString | day16/coffee_machine/drink.py:13-14 | the digits written for `n` read back as `n` |
| Drinks.CanonicalMagnitude | day16/coffee_machine/drink.py:13-14 | a digit string without leading zeros has more than one digit exactly when its value is 10 or more |
| Drinks.CanonicalUnique | day16/coffee_machine/drink.py:13-14 | two digit strings without leading zeros that denote the same number are the same string |
| Drinks.NatToStringUnique | day16/coffee_machine/drink.py:13-14 | the digits written for `n` are the only spelling of `n` without leading zeros |
| Drinks.PriceText | day16/coffee_machine/drink.py:13-14 | the `:.2f` text of a price: whole dollars without leading zeros, a point, then exactly two digits |
| Drinks.TwoDigitsValue | day16/coffee_machine/drink.py:13-14 | two digit characters read back as the two-digit number they spell |
| Drinks.PriceTextReadsBack | day16/coffee_machine/drink.py:13-14 | the dollars before the point and the two decimals after it read back as the price in cents |
| Drinks.PriceTextUnique | day16/coffee_machine/drink.py:13-14 | any text of that two-decimal shape that denotes the price is exactly the price text, so shape and value fix the `:.2f` output |
| Drinks.Str | day16/coffee_machine/drink.py:13-14 | `str(drink)` is the capitalised name, then ": $", then a two-decimal text (no leading zeros, a point, two digits) that denotes the drink's price, which `PriceTextUnique` shows is the `:.2f` text |
| Drinks.StrExample | day16/coffee_machine/drink.py:13-14 | a latte at 2.50 shows as "Latte: $2.50" |
| Resources.FromName | day16/coffee_machine/coffee_machine.py:118 | looking up an ingredient name gives the resource with that name, and fails only for a string that names no resource |
| Resources.Lookup | day16/coffee_machine/resource_manager.py:4-7 | enum lookup by value as declared: it finds the member whose `auto()` value equals the argument, and nothing else |
| Resources.NoNameIsAValue | day16/coffee_machine/resource_manager.py:4-7 | as declared, no string is a member's value, so `ResourceType("water")` raises where the name lookup succeeds |
| Resources.FromNameOfName | day16/coffee_machine/resource_manager.py:4-7 | each resource's own name looks up to that resource |
| ResourceManagement.FirstShortIndex | day16/coffee_machine/resource_manager.py:42-48 | every requirement before the index is covered, and the one at the index is not |
| ResourceManagement.Shortfall | day16/coffee_machine/resource_manager.py:32-48 | None iff every required resource is present in at least the required amount; otherwise the first requirement that is absent or short |
| ResourceManagement.Unit | day16/coffee_machine/resource_manager.py:110-123 | "g" exactly for coffee, "ml" exactly for the others |
| ResourceManagement.ResourceManager.constructor | day16/coffee_machine/resource_manager.py:14-21 | the manager holds its own copy of the initial stock |
| ResourceManagement.ResourceManager.GetResources | day16/coffee_machine/resource_manager.py:23-30 | a copy with the same keys and the same quantities |
| ResourceManagement.ResourceManager.HasResource | day16/coffee_machine/resource_manager.py:98-108 | true iff the resource is a key of the stock |
| ResourceManagement.ResourceManager.CheckResources | day16/coffee_machine/resource_manager.py:32-48 | the read-only scan returns exactly `Shortfall` of the current stock |
| ResourceManagement.ResourceManager.DeductResources | day16/coffee_machine/resource_manager.py:50-66 | the new stock and the error are exactly the `Deducted` fold of the old stock |
| ResourceManagement.ResourceManager.AddResources | day16/coffee_machine/resource_manager.py:68-84 | the new stock and the error are exactly the `Added` fold of the old stock |
| ResourceManagement.ShortIndexFrame | day16/coffee_machine/resource_manager.py:42-48 | changing stock that no requirement depends on does not move the first shortfall |
| ResourceManagement.DeductFailsWhereCheckFails | day16/coffee_machine/resource_manager.py:61-66 | deduction fails iff `check_resources` would report a resource; the error is KeyError for an absent resource and ValueError for a short one, at that same resource |
| ResourceManagement.DeductExact | day16/coffee_machine/resource_manager.py:61-66 | a successful deduction keeps the keys, lowers each listed resource by exactly its amount, and leaves unlisted ones unchanged |
| ResourceManagement.DeductedAppend | day16/coffee_machine/resource_manager.py:61-66 | deducting `a + b` is deducting `a`, then `b` if `a` succeeded |
| ResourceManagement.DeductNotAtomic | day16/coffee_machine/resource_manager.py:61-66 | when entry `i` fails, the entries before it stay deducted and the error names entry `i`'s resource |
| ResourceManagement.DeductKeepsNonNegative | day16/coffee_machine/resource_manager.py:61-66 | no deduction takes a quantity below zero |
| ResourceManagement.DeductPartialExample | day16/coffee_machine/resource_manager.py:61-66 | from 300/200/100, using 50 water then 300 milk fails on milk with the water already taken |
| ResourceManagement.AddSucceedsIffAmountsValid | day16/coffee_machine/resource_manager.py:78-80 | adding succeeds iff every amount is a non-negative int; zero is accepted |
| ResourceManagement.AddExact | day16/coffee_machine/resource_manager.py:78-84 | a successful add gives the old keys plus the added ones; a known resource rises by its amount, an unknown one is created with it, and others are unchanged |
| ResourceManagement.AddedKeys | day16/coffee_machine/resource_manager.py:78-84 | a successful add ends with exactly the old keys plus the added ones |
| ResourceManagement.AddedUnlisted | day16/coffee_machine/resource_manager.py:78-84 | a successful add leaves every resource it does not list at its old quantity |
| ResourceManagement.AddedListed | day16/coffee_machine/resource_manager.py:78-84 | with distinct keys, a successful add raises each listed resource by its amount, or creates it with that amount when absent |
| ResourceManagement.AddedAppend | day16/coffee_machine/resource_manager.py:78-84 | adding `a + b` is adding `a`, then `b` if `a` succeeded |
| ResourceManagement.AddNotAtomic | day16/coffee_machine/resource_manager.py:78-84 | entries before the first invalid amount stay added, and the error names that entry's resource |
| Coins.AcceptedCounts | day16/coffee_machine/money_machine.py:54-65 | never more counts than answers given |
| Coins.WorthOfFour | day16/coffee_machine/money_machine.py:9-14 | four counts are worth 25·q + 10·d + 5·n + p cents |
| Coins.AcceptedCountsAppend | day16/coffee_machine/money_machine.py:55-64 | the counts accepted from two stretches of answers are those of each, concatenated |
| Coins.RejectedAnswerIgnored | day16/coffee_machine/money_machine.py:56-64 | a negative or non-numeric answer changes nothing: it is neither added nor lets a coin be skipped |
| Coins.AcceptedFour | day16/coffee_machine/money_machine.py:55-64 | four answers contribute exactly their accepted counts, in order |
| Coins.AcceptedCountsStep | day16/coffee_machine/money_machine.py:56-64 | one more answer adds exactly its accepted count, if any, to the counts so far |
| Coins.WorthStep | day16/coffee_machine/money_machine.py:60 | an accepted count for the next coin raises the total by that count times the coin's value |
| Coins.TenderedOnceAllCounted | day16/coffee_machine/money_machine.py:54-65 | once all four coins are counted, later answers are not read: the payment is the worth of those four counts |
| Coins.ReadCount | day16/coffee_machine/money_machine.py:55-63 | the retry loop for one coin returns the next accepted count, skipping rejected answers, or None when input runs out first |
| Coins.ReadCoins | day16/coffee_machine/money_machine.py:44-65 | the nested retry loop returns exactly `Tendered`: the worth of the first four accepted counts (quarters, dimes, nickles, pennies), or None when input runs out first |
| Coins.TenderedSeventy | day16/coffee_machine/money_machine.py:54-65 | answers 2, 1, 1, 5 make 0.70 |
| Coins.TenderedAfterNegative | day16/coffee_machine/money_machine.py:56-64 | a -1 before 2, 1, 1, 5 is re-asked, and the total is still 0.70 |
| Coins.TenderedSixtySix | day15/my_main.py:88-104 | answers 2, 1, 1, 1 make 0.66 |
| Money.RoundHalfUpToCents | day16/coffee_machine/money_machine.py:29 | the result is within half a cent of the amount, ties going up |
| Money.RoundingExamples | day16/coffee_machine/money_machine.py:29 | 10.5 becomes 10.50 and 0.125 becomes 0.13 |
| Money.MoneyMachine.constructor | day16/coffee_machine/money_machine.py:29-30 | profit is the initial amount rounded half-up to cents; no transactions yet |
| Money.MoneyMachine.New | day16/coffee_machine/money_machine.py:17-30 | ValueError iff the initial profit is negative; otherwise a fresh ledger with the rounded profit and zero transactions |
| Money.MoneyMachine.Profit | day16/coffee_machine/money_machine.py:104-118 | the current profit |
| Money.MoneyMachine.MakePayment | day16/coffee_machine/money_machine.py:67-98 | cost ≤ 0 raises before any coin is read; end of input raises; a payment below the cost is refunded with nothing credited; otherwise change = payment − cost ≥ 0, profit rises by the cost and transactions by one |
| Money.MoneyMachine.AddMoney | day16/coffee_machine/money_machine.py:100-102 | profit rises by the amount and the transaction count by one |
| Money.MoneyMachine.SetEarnings | day16/coffee_machine/money_machine.py:107-108 | profit becomes the amount; the transaction count is unchanged |
| Menus.Build | day16/coffee_machine/menu.py:42-49 | a record becomes a drink iff it has both `ingredients` and `price`, and `Drink` construction accepts them; the drink carries the record's key as its name |
| Menus.InOrder | day16/coffee_machine/menu.py:97-99 | one drink per listed name, in load order, each filed under its own name |
| Menus.LoadedWellFormed | day16/coffee_machine/menu.py:41-49 | loading keeps names listed once each, matching the dict's keys, with each drink under its own name |
| Menus.LoadedLookup | day16/coffee_machine/menu.py:41-49 | after loading, a name holds the drink of the last record under it that builds one, else what it held before |
| Menus.LoadedKeepsOrder | day16/coffee_machine/menu.py:41-45 | loading adds without clearing: existing names keep their positions, and new names are appended |
| Menus.DistinctCard | day16/coffee_machine/menu.py:93-95 | a list of distinct names has as many elements as its set |
| Menus.SizeMatchesOrder | day16/coffee_machine/menu.py:93-95 | the number of drinks equals the number of listed names |
| Menus.EmptyMenu | day16/coffee_machine/menu.py:51-52 | no records give an empty menu: no names, no drinks |
| Menus.Menu.constructor | day16/coffee_machine/menu.py:15-23 | a new menu is the empty catalogue loaded with the file's records |
| Menus.Menu.LoadMenu | day16/coffee_machine/menu.py:41-52 | the catalogue becomes `Loaded` of the old one, added into without clearing |
| Menus.Menu.FromFile | day16/coffee_machine/menu.py:78-91 | the default records are loaded, then the given ones into the same catalogue |
| Menus.Menu.FindDrink | day16/coffee_machine/menu.py:54-55 | a drink iff the name is on the menu, and then exactly the drink stored under that name |
| Menus.Menu.AvailableDrinks | day16/coffee_machine/menu.py:57-65 | the names in load order, one per drink, exactly the menu's names |
| Menus.Menu.Length | day16/coffee_machine/menu.py:93-95 | the number of drinks |
| Menus.Menu.Drinks | day16/coffee_machine/menu.py:97-99 | the drinks in load order |
| Machine.ResourceLedger.GetResource | day16/coffee_machine/test_coffee_machine.py:11-17 | the level of the resource |
| Machine.ResourceLedger.SetResource | day16/coffee_machine/test_coffee_machine.py:11-17 | the resource's level becomes the amount; the others are unchanged |
| Machine.ResourceLedger.UseResource | day16/coffee_machine/test_coffee_machine.py:11-17 | succeeds iff the level covers the amount, and then lowers it by the amount; a failure changes nothing |
| Machine.FirstUnmet | day16/coffee_machine/coffee_machine.py:117-123 | every ingredient before the index names a resource whose level covers it; the one at the index does not |
| Machine.Shortage | day16/coffee_machine/coffee_machine.py:117-123 | None iff every ingredient is known and covered; otherwise, at the first one that is not, the resource that is short or the ValueError of an unknown name |
| Machine.BrewAfterCheck | day16/coffee_machine/coffee_machine.py:91-99 | after a passed check, brewing cannot fail, and each resource drops by exactly what the recipe lists (nothing if unlisted) |
| Machine.BrewFailsWhereCheckFails | day16/coffee_machine/coffee_machine.py:161-166 | with distinct names, an ingredient that is unknown or under-stocked makes the brew stop early |
| Machine.BrewCompletesIffCheckPasses | day16/coffee_machine/coffee_machine.py:161-166 | with distinct names, the brew completes exactly when the resource check finds nothing missing |
| Machine.NeedStep | day16/coffee_machine/coffee_machine.py:162-164 | with distinct names, what a recipe needs of a resource is its first entry's amount when that entry names it (no later entry names it again), and otherwise what the rest of the recipe needs |
| Machine.BrewedAppend | day16/coffee_machine/coffee_machine.py:161-166 | a brew that fails part-way keeps every use made before the failure |
| Machine.CalculateChange | day16/coffee_machine/coffee_machine.py:149-150 | cost plus change is exactly the payment, and the change is non-negative iff the payment covers the cost |
| Machine.RefilledAsWritten | day16/coffee_machine/coffee_machine.py:203-219 | the refill loop as written; it yields a complete stock of levels |
| Machine.Refilled | day16/coffee_machine/coffee_machine.py:203-219 | the refill as intended; it yields a complete stock of levels |
| Machine.RefilledAddsSupply | day16/coffee_machine/coffee_machine.py:203-219 | a refill raises each resource by its amount when that is positive, and leaves it unchanged otherwise |
| Machine.AsWrittenAgreesWithoutForeignKeys | day16/coffee_machine/coffee_machine.py:203-219 | when every key is a resource type, the code as written completes and does exactly the intended refill |
| Machine.ForeignKeyAbortsRefill | day16/coffee_machine/coffee_machine.py:205-215 | refilling {"water": 500, COFFEE: 100} as written aborts at once, where the intended refill adds the coffee |
| Machine.FloorDiv | day16/coffee_machine/coffee_machine.py:322 | Python's `//`: the quotient rounded towards minus infinity, for either sign of divisor |
| Machine.FloorDivBound | day16/coffee_machine/coffee_machine.py:322 | for a positive divisor, `k ≤ a // b` iff `k·b ≤ a` |
| Machine.MinServingsFailureSticks | day16/coffee_machine/coffee_machine.py:319-323 | once an ingredient has raised, the later ones cannot change the outcome |
| Machine.PossibleDrinksFailureSticks | day16/coffee_machine/coffee_machine.py:317-324 | once a drink has raised, the later ones cannot change the outcome |
| Machine.ServingsAreMaximal | day16/coffee_machine/coffee_machine.py:316-325 | for known ingredients with positive amounts, the servings count is the largest `k` whose `k`-fold recipe the levels cover |
| Machine.CoffeeMachine.constructor | day16/coffee_machine/coffee_machine.py:32-43 | the machine holds the given menu, resource ledger and money machine, and is valid when the menu and ledger are |
| Machine.CoffeeMachine.CheckResources | day16/coffee_machine/coffee_machine.py:103-123 | InvalidDrinkError for a name off the menu; otherwise exactly `Shortage` of the current levels, changing nothing |
| Machine.CoffeeMachine.ProcessPayment | day16/coffee_machine/coffee_machine.py:125-147 | InvalidDrinkError off the menu; False, crediting nothing, when input runs out or the payment is below the price; otherwise the change and exactly one `add_money(price)` |
| Machine.CoffeeMachine.MakeCoffee | day16/coffee_machine/coffee_machine.py:156-170 | InvalidDrinkError off the menu; otherwise the levels are the `Brewed` fold, and RuntimeError is raised exactly when a use failed, with earlier uses kept; with distinct names that is exactly when `check_resources` would report (`BrewCompletesIffCheckPasses`) |
| Machine.CoffeeMachine.ProcessSelection | day16/coffee_machine/coffee_machine.py:79-101 | lookup, then check, then payment, then brewing. No drink served: neither ledger changes. A drink served: each resource drops by exactly its recipe amount, profit rises by the price, transactions by one |
| Machine.CoffeeMachine.RefillResources | day16/coffee_machine/coffee_machine.py:196-219 | the levels become the intended refill of the old ones: each resource type with a positive amount is raised by it, other entries are skipped |
| Machine.CoffeeMachine.GetStatus | day16/coffee_machine/coffee_machine.py:221-242 | one entry per resource in enum order, under its name with its current level, and the earnings equal to the profit |
| Machine.StatusLookup | day16/coffee_machine/coffee_machine.py:233-235 | the status lists one entry per resource in enum order, and looking up a resource's name gives its level |
| Machine.CoffeeMachine.MaxServings | day16/coffee_machine/coffee_machine.py:318-323 | the min-accumulator loop returns exactly `MinServings` |
| Machine.CoffeeMachine.CalculatePossibleDrinks | day16/coffee_machine/coffee_machine.py:309-325 | the read-only nested loops return exactly `PossibleDrinks`: each drink's name with its servings, in menu order, or the first error raised |
| SimpleMachine.MenuWellFormed | day15/my_main.py:7-37 | every recipe lists each ingredient once, and only stocked ones |
| SimpleMachine.Subtracted | day15/my_main.py:119-124 | serving keeps the stock's keys |
| SimpleMachine.SubtractedExact | day15/my_main.py:119-124 | each listed ingredient drops by exactly its amount; the other entries are unchanged |
| SimpleMachine.SubtractedStep | day15/my_main.py:121-122 | subtracting from entry `i` on is lowering entry `i`'s ingredient by its amount, then subtracting the rest |
| SimpleMachine.ServingKeepsStockNonNegative | day15/my_main.py:59-62 | a drink served after a passed check leaves no level negative |
| SimpleMachine.CheckTransaction | day15/my_main.py:106-117 | the money is accepted iff it covers the cost, that is, False iff money inserted < cost |
| SimpleMachine.CoffeeMachine.constructor | day15/my_main.py:33-37 | the stock starts at 300 water, 200 milk and 100 coffee |
| SimpleMachine.CoffeeMachine.CheckResources | day15/my_main.py:78-86 | true iff every ingredient is stocked in at least its amount; reads only |
| SimpleMachine.CoffeeMachine.MakeCoffee | day15/my_main.py:119-124 | the stock becomes the `Subtracted` fold of the old one, without any check |
| SimpleMachine.CoffeeMachine.Use | day15/my_main.py:121-122 | the loop lowers the stock in place to exactly the `Subtracted` fold of the old stock, keeping its keys |
| SimpleMachine.CoffeeMachine.ProcessCommand | day15/my_main.py:50-67 | "off" gives (False, money); "report" and unknown commands give (True, money). A drink is served, stock lowered and cost added, only when the stock covers it and the coins (day15/my_main.py:88-104) cover the cost; otherwise nothing changes. End of input escapes. No level ever goes negative |

## Left out

- Console and file I/O: `print`, logging, `input()` prompts as such, `start`, `prompt_user`, the `print_report`/`_print_*`/`report` displays, `handle_error`, `_log_error`, `save_state`/`load_state`, `maintenance_mode` and `time.sleep`. Coins read from the console are modelled as a sequence of answers.
- `check_low_resources` (`coffee_machine.py:296-307`): it compares a float quotient with 0.2 and only prints. It is not modelled, so `ProcessSelection` stops after brewing.
- Floating-point money: float-to-Decimal conversions, `get_earnings`'s `float(...)`, day-15's float total with `round`. Money is integer cents throughout.
- File existence and JSON decoding in `Menu._load_menu`: the menu is loaded from already-parsed records.
- `__str__`/`__repr__` of `ResourceManager`, `MoneyMachine` and `Drink`, and `Menu.print_menu`: display only. `Drink.__str__` is modelled as `Drinks.Str`.
- Unicode `str.capitalize`: only ASCII letters change case.
- `Drink`'s read-only properties and the copy its `ingredients` getter returns are immediate for a Dafny datatype value.
- `Drink.__init__` keeps the caller's dict (`drink.py:10`), so the caller can change a drink's ingredients after construction; the model's drinks are values, so this aliasing is not captured.
- The exception raised at `coffee_machine.py:93` is modelled as `InsufficientResources(resource)`, not as the TypeError its arity mismatch causes.
- `day16/coffee_machine/main.py` and `day14/mymain.py`: configuration plumbing and a random console game are not part of this model.
- Machine.CoffeeMachine.RefillResources: models the evidently intended refill, not the AttributeError the code as written raises for a non-`ResourceType` key (see Findings; `RefilledAsWritten` models the code).
- Resources.FromName: models the evidently intended lookup by name, not the lookup by `auto()` value that always raises as declared (see Findings; `Lookup` models the declaration).
- Machine.CoffeeMachine.CalculatePossibleDrinks: iterates the menu in load order where the code calls `menu.get_drinks()` (`coffee_machine.py:317`), which `Menu` does not define.
- Machine.CoffeeMachine.GetStatus: files each level under the resource's name where the code as written files it under the `auto()` value 1, 2 or 3 (`coffee_machine.py:233-235`; see Findings).
- Machine.CoffeeMachine.ProcessPayment: reads the drink's `price` where the code reads `drink.cost`, an attribute `Drink` does not have.

## Findings

| source | as written | input that shows it | evidently intended | confidence | as-written member | corrected member |
|---|---|---|---|---|---|---|
| day16/coffee_machine/coffee_machine.py:205-217 | a key that is not a `ResourceType` raises ValueError, whose handler formats `resource_type.value`; that raises AttributeError out of the loop, so later entries are never refilled | `refill_resources({"water": 500, ResourceType.COFFEE: 100})` | skip the bad entry, report it, and go on with the rest | high; not executed | Machine.RefilledAsWritten | Machine.Refilled |
| day16/coffee_machine/resource_manager.py:4-7 | the members take `auto()` values 1, 2 and 3, so `ResourceType(ingredient)` at coffee_machine.py:118, 163 and 320 raises ValueError for every ingredient name, and `get_status` (coffee_machine.py:233-235) files levels under 1, 2 and 3 instead of names | `check_resources("latte")` with ingredient "water" | member values "water", "milk" and "coffee", the names recipes use | high; not executed | Resources.Lookup | Resources.FromName |
