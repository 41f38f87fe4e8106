/**
 * `Menu` (day16/coffee_machine/menu.py): the drink catalogue, a dict from
 * drink name to `Drink` that `_load_menu` fills in place from the records of
 * an already-parsed menu file.  A Python dict remembers insertion order, so
 * the model keeps the dict's contents (`drinks`) and its key order (`names`).
 * Reading and decoding the file are not part of this model; a file is given
 * as its records in file order, each with its `ingredients` and `price`
 * fields present or absent.
 */
module Menus {
  import opened Wrappers
  import opened Drinks

  /** One parsed record of the menu file. */
  datatype Record = Record(ingredients: Option<Ingredients>, price: Option<int>)

  /** A snapshot of the catalogue dict: its keys in insertion order and its contents. */
  datatype Catalogue = Catalogue(order: seq<string>, byName: map<string, Drink>)

  const Empty: Catalogue := Catalogue([], map[])

  /** Keys listed once each, exactly the keys of the map, each drink filed under its own name. */
  ghost predicate WellFormed(c: Catalogue) {
    && (forall i, j :: 0 <= i < j < |c.order| ==> c.order[i] != c.order[j])
    && (forall n :: n in c.byName <==> n in c.order)
    && (forall n :: n in c.byName ==> c.byName[n].name == n)
  }

  /**
   * The drink one record yields: none when a field is missing (KeyError) or
   * when `Drink(...)` raises (empty ingredients, negative price); both are
   * logged and skipped.
   */
  function Build(name: string, rec: Record): (d: Option<Drink>)
    ensures d.Some? <==>
      rec.ingredients.Some? && rec.price.Some? && |rec.ingredients.value| > 0 && rec.price.value >= 0
    ensures d.Some? ==> d.value == Drink(name, rec.ingredients.value, rec.price.value)
  {
    if rec.ingredients.None? || rec.price.None? then None
    else match NewDrink(name, rec.ingredients.value, rec.price.value)
      case Success(drink) => Some(drink)
      case Failure(_) => None
  }

  /** `self._drinks[name] = drink`: a new name goes last, a known name keeps its place. */
  function Store(c: Catalogue, name: string, d: Drink): Catalogue {
    Catalogue(if name in c.byName then c.order else c.order + [name], c.byName[name := d])
  }

  /** The `_load_menu` loop over the records, added into what the catalogue already holds. */
  function Loaded(c: Catalogue, records: seq<(string, Record)>): Catalogue
    decreases |records|
  {
    if records == [] then c
    else
      var before := Loaded(c, records[..|records| - 1]);
      var (name, rec) := records[|records| - 1];
      match Build(name, rec)
      case None => before
      case Some(d) => Store(before, name, d)
  }

  /** The drink built by the last record under `name` that builds one. */
  function LastBuilt(records: seq<(string, Record)>, name: string): Option<Drink>
    decreases |records|
  {
    if records == [] then None
    else
      var (n, rec) := records[|records| - 1];
      if n == name && Build(n, rec).Some? then Build(n, rec)
      else LastBuilt(records[..|records| - 1], name)
  }

  /** The drinks in catalogue order (what iterating over the menu yields). */
  function InOrder(c: Catalogue): (ds: seq<Drink>)
    requires WellFormed(c)
    ensures |ds| == |c.order|
    ensures forall i :: 0 <= i < |ds| ==> c.order[i] in c.byName && ds[i] == c.byName[c.order[i]] && ds[i].name == c.order[i]
  {
    seq(|c.order|, i requires 0 <= i < |c.order| => c.byName[c.order[i]])
  }

  lemma {:induction false} LoadedWellFormed(c: Catalogue, records: seq<(string, Record)>)
    requires WellFormed(c)
    ensures WellFormed(Loaded(c, records))
    decreases |records|
  {
    if records != [] {
      LoadedWellFormed(c, records[..|records| - 1]);
    }
  }

  /**
   * After loading, a name holds the drink of its last valid record; a name
   * with no valid record keeps whatever it held before, or stays absent.
   * So every complete and valid record becomes a drink under its key, skipped
   * records change nothing, a repeated name overwrites, and loading adds to
   * the catalogue without clearing it.
   */
  lemma {:induction false} LoadedLookup(c: Catalogue, records: seq<(string, Record)>, name: string)
    ensures var after := Loaded(c, records);
      match LastBuilt(records, name)
      case Some(d) => name in after.byName && after.byName[name] == d
      case None => (name in after.byName <==> name in c.byName)
                   && (name in c.byName ==> after.byName[name] == c.byName[name])
    decreases |records|
  {
    if records != [] {
      LoadedLookup(c, records[..|records| - 1], name);
    }
  }

  /** Names already in the catalogue keep their positions; new names are appended. */
  lemma {:induction false} LoadedKeepsOrder(c: Catalogue, records: seq<(string, Record)>)
    ensures c.order <= Loaded(c, records).order
    decreases |records|
  {
    if records != [] {
      LoadedKeepsOrder(c, records[..|records| - 1]);
    }
  }

  lemma {:induction false} DistinctCard(s: seq<string>)
    requires forall i, j :: 0 <= i < j < |s| ==> s[i] != s[j]
    ensures |set x | x in s| == |s|
    decreases |s|
  {
    if s != [] {
      var init := s[..|s| - 1];
      DistinctCard(init);
      assert (set x | x in s) == (set x | x in init) + {s[|s| - 1]};
    }
  }

  /** The number of drinks equals the number of listed names. */
  lemma SizeMatchesOrder(c: Catalogue)
    requires WellFormed(c)
    ensures |c.byName| == |c.order|
  {
    DistinctCard(c.order);
    assert c.byName.Keys == set x | x in c.order;
  }

  class Menu {
    var names: seq<string>
    var drinks: map<string, Drink>

    function Table(): Catalogue
      reads this
    {
      Catalogue(names, drinks)
    }

    ghost predicate Valid()
      reads this
    {
      WellFormed(Table())
    }

    /** `Menu(menu_file)`: an empty catalogue filled from the file's records. */
    constructor (records: seq<(string, Record)>)
      ensures Valid() && Table() == Loaded(Empty, records)
    {
      names := [];
      drinks := map[];
      new;
      LoadMenu(records);
    }

    /** `_load_menu`, after parsing: store every record that makes a valid drink, skip the others. */
    method LoadMenu(records: seq<(string, Record)>)
      requires Valid()
      modifies this
      ensures Valid() && Table() == Loaded(old(Table()), records)
    {
      var i := 0;
      while i < |records|
        invariant 0 <= i <= |records|
        invariant Table() == Loaded(old(Table()), records[..i])
        invariant Valid()
      {
        assert records[..i + 1][..i] == records[..i];
        var (name, rec) := records[i];
        if rec.ingredients.Some? && rec.price.Some? {
          var made := NewDrink(name, rec.ingredients.value, rec.price.value);
          if made.Success? {
            if name !in drinks {
              names := names + [name];
            }
            drinks := drinks[name := made.value];
          }
        }
        LoadedWellFormed(old(Table()), records[..i + 1]);
        i := i + 1;
      }
      assert records[..i] == records;
    }

    /** `Menu.from_file(path)`: the default menu file is loaded first, then the given one into the same catalogue. */
    static method FromFile(defaultRecords: seq<(string, Record)>, records: seq<(string, Record)>) returns (m: Menu)
      ensures fresh(m) && m.Valid()
      ensures m.Table() == Loaded(Loaded(Empty, defaultRecords), records)
    {
      m := new Menu(defaultRecords);
      m.LoadMenu(records);
    }

    /** `find_drink`: the drink stored under exactly this name, or None. */
    function FindDrink(name: string): (r: Option<Drink>)
      reads this
      requires Valid()
      ensures r.Some? <==> name in names
      ensures r.Some? ==> r.value == drinks[name] && r.value.name == name
    {
      if name in drinks then Some(drinks[name]) else None
    }

    /** `available_drinks`: the names in load order, one per drink. */
    function AvailableDrinks(): (r: seq<string>)
      reads this
      requires Valid()
      ensures |r| == |drinks|
      ensures forall n :: n in r <==> n in drinks
      ensures r == Table().order
    {
      SizeMatchesOrder(Table());
      names
    }

    /** `len(menu)`. */
    function Length(): (n: nat)
      reads this
      requires Valid()
      ensures n == |names|
    {
      SizeMatchesOrder(Table());
      |drinks|
    }

    /** Iterating over the menu: the drinks in load order. */
    function Drinks(): (ds: seq<Drink>)
      reads this
      requires Valid()
      ensures ds == InOrder(Table())
    {
      InOrder(Table())
    }
  }

  /** A menu built from no records is empty. */
  lemma EmptyMenu()
    ensures Loaded(Empty, []) == Empty && |Empty.order| == 0 && |Empty.byName| == 0
  {
  }
}
