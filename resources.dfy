/**
 * `ResourceType` (day16/coffee_machine/resource_manager.py): the consumables
 * the day-16 machine tracks.  Recipes name their ingredients by string, and
 * the machine turns such a name into a member with `ResourceType(name)`.
 * Enum lookup goes by value; the members are declared with `auto()`, so
 * their values are the integers 1, 2 and 3 and no string finds a member
 * (`Lookup`).  The rest of the model uses the evidently intended values,
 * the names "water", "milk" and "coffee" (`FromName`).
 */
module Resources {
  import opened Wrappers

  datatype Resource = Water | Milk | Coffee

  /** Every member, in declaration order (the order `for r in ResourceType` visits them). */
  const AllResources: seq<Resource> := [Water, Milk, Coffee]

  /** The ingredient name of a resource, as recipes spell it. */
  function Name(r: Resource): string {
    match r
    case Water => "water"
    case Milk => "milk"
    case Coffee => "coffee"
  }

  /** `ResourceType(name)`: the member with this name, or None where Python raises ValueError. */
  function FromName(s: string): (r: Option<Resource>)
    ensures r.Some? ==> Name(r.value) == s
    ensures r.None? ==> forall x :: Name(x) != s
  {
    if s == "water" then Some(Water)
    else if s == "milk" then Some(Milk)
    else if s == "coffee" then Some(Coffee)
    else None
  }

  /** A Python value handed to the enum lookup. */
  datatype PyValue = IntValue(i: int) | StrValue(s: string)

  /** The value `auto()` gives each member: 1, 2, 3 in declaration order. */
  function AutoValue(r: Resource): PyValue {
    match r
    case Water => IntValue(1)
    case Milk => IntValue(2)
    case Coffee => IntValue(3)
  }

  /** `ResourceType(v)` as declared: the member whose value equals `v`, None for ValueError. */
  function Lookup(v: PyValue): (r: Option<Resource>)
    ensures r.Some? ==> AutoValue(r.value) == v
    ensures r.None? ==> forall x :: AutoValue(x) != v
  {
    if v == IntValue(1) then Some(Water)
    else if v == IntValue(2) then Some(Milk)
    else if v == IntValue(3) then Some(Coffee)
    else None
  }

  /** As declared, no ingredient name is the value of a member: `ResourceType("water")` raises ValueError. */
  lemma NoNameIsAValue(s: string)
    ensures Lookup(StrValue(s)).None?
    ensures FromName("water") == Some(Water) && Lookup(StrValue("water")) == None
  {
  }

  /** Looking up a resource's own name gives the resource back. */
  lemma FromNameOfName(r: Resource)
    ensures FromName(Name(r)) == Some(r)
  {
  }
}
