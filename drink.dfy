/**
 * `Drink` (day16/coffee_machine/drink.py): a record of a name, an ingredient
 * map and a price, exposed through read-only properties.  Prices are integer
 * cents.  A drink here is a value: the copy returned by the `ingredients`
 * property is implied, but so is a copy on construction, which the source
 * does not make (the caller's dict stays shared with the drink).
 */
module Drinks {
  import opened Wrappers
  import opened Dicts

  /** An ingredient dict: ingredient name to amount, in insertion order. */
  type Ingredients = s: seq<(string, int)> | DistinctKeys(s) witness []

  datatype Drink = Drink(name: string, ingredients: Ingredients, price: nat)

  /** Why `Drink.__init__` raised ValueError. */
  datatype DrinkError = EmptyIngredients | NegativePrice

  /** `Drink(name, ingredients, price)`: validates, then stores the arguments unchanged. */
  function NewDrink(name: string, ingredients: Ingredients, price: int): (r: Result<Drink, DrinkError>)
    ensures r.Success? <==> |ingredients| > 0 && price >= 0
    ensures |ingredients| == 0 ==> r == Failure(EmptyIngredients)
    ensures |ingredients| > 0 && price < 0 ==> r == Failure(NegativePrice)
    ensures r.Success? ==> r.value.name == name && r.value.ingredients == ingredients && r.value.price == price
  {
    if |ingredients| == 0 then Failure(EmptyIngredients)
    else if price < 0 then Failure(NegativePrice)
    else Success(Drink(name, ingredients, price))
  }

  // ---- `__str__`: "<Capitalised name>: $<price with two decimals>" ----

  function ToUpper(c: char): char {
    if 'a' <= c <= 'z' then (c as int - 'a' as int + 'A' as int) as char else c
  }

  function ToLower(c: char): char {
    if 'A' <= c <= 'Z' then (c as int - 'A' as int + 'a' as int) as char else c
  }

  function LowerAll(s: string): (r: string)
    ensures |r| == |s| && forall i :: 0 <= i < |s| ==> r[i] == ToLower(s[i])
  {
    if s == [] then [] else [ToLower(s[0])] + LowerAll(s[1..])
  }

  /** Python's `str.capitalize` on ASCII letters: first character upper case, the rest lower case. */
  function Capitalize(s: string): (r: string)
    ensures |r| == |s|
    ensures |s| > 0 ==> r[0] == ToUpper(s[0])
    ensures forall i :: 0 < i < |s| ==> r[i] == ToLower(s[i])
  {
    if s == [] then [] else [ToUpper(s[0])] + LowerAll(s[1..])
  }

  function DigitChar(d: nat): char
    requires d < 10
  {
    "0123456789"[d]
  }

  function DigitValue(c: char): nat {
    if '0' <= c <= '9' then c as int - '0' as int else 0
  }

  predicate IsDigit(c: char) {
    '0' <= c <= '9'
  }

  /** A non-empty string of decimal digits without leading zeros. */
  predicate Canonical(s: string) {
    |s| > 0 && (forall i :: 0 <= i < |s| ==> IsDigit(s[i])) && (|s| > 1 ==> s[0] != '0')
  }

  /** The decimal digits of `n`, without leading zeros. */
  function NatToString(n: nat): (s: string)
    ensures |s| > 0 && forall i :: 0 <= i < |s| ==> IsDigit(s[i])
    ensures |s| > 1 ==> s[0] != '0'
    ensures |s| == 1 <==> n < 10
  {
    if n < 10 then [DigitChar(n)] else NatToString(n / 10) + [DigitChar(n % 10)]
  }

  /** The number a string of decimal digits denotes. */
  function DecimalValue(s: string): nat {
    if s == [] then 0 else DecimalValue(s[..|s| - 1]) * 10 + DigitValue(s[|s| - 1])
  }

  lemma {:induction false} DecimalValueOfNatToString(n: nat)
    ensures DecimalValue(NatToString(n)) == n
  {
    var s := NatToString(n);
    if n >= 10 {
      DecimalValueOfNatToString(n / 10);
      assert s[..|s| - 1] == NatToString(n / 10);
    }
  }

  /** A canonical digit string has value 10 or more exactly when it has more than one digit. */
  lemma {:induction false} CanonicalMagnitude(s: string)
    requires Canonical(s)
    ensures |s| > 1 <==> DecimalValue(s) >= 10
    decreases |s|
  {
    if |s| > 1 {
      var init := s[..|s| - 1];
      assert init[0] == s[0];
      assert Canonical(init);
      if |init| > 1 {
        CanonicalMagnitude(init);
      } else {
        assert DecimalValue(init[..0]) == 0;
        assert DecimalValue(init) >= 1;
      }
    } else {
      assert s[..0] == [];
    }
  }

  /** Two digit characters with the same value are the same character. */
  lemma DigitValueInjective(c: char, e: char)
    requires IsDigit(c) && IsDigit(e) && DigitValue(c) == DigitValue(e)
    ensures c == e
  {
  }

  /** A number has only one canonical decimal spelling. */
  lemma {:induction false} CanonicalUnique(a: string, b: string)
    requires Canonical(a) && Canonical(b) && DecimalValue(a) == DecimalValue(b)
    ensures a == b
    decreases |a|
  {
    CanonicalMagnitude(a);
    CanonicalMagnitude(b);
    var la, lb := a[..|a| - 1], b[..|b| - 1];
    var da, db := DigitValue(a[|a| - 1]), DigitValue(b[|b| - 1]);
    assert DecimalValue(la) * 10 + da == DecimalValue(lb) * 10 + db;
    assert da == db && DecimalValue(la) == DecimalValue(lb);
    DigitValueInjective(a[|a| - 1], b[|b| - 1]);
    if |a| > 1 {
      assert la[0] == a[0] && lb[0] == b[0];
      CanonicalUnique(la, lb);
      assert a == la + [a[|a| - 1]] && b == lb + [b[|b| - 1]];
    }
  }

  /** `NatToString(n)` is the only canonical decimal spelling of `n`. */
  lemma NatToStringUnique(t: string, n: nat)
    requires Canonical(t) && DecimalValue(t) == n
    ensures t == NatToString(n)
  {
    DecimalValueOfNatToString(n);
    CanonicalUnique(t, NatToString(n));
  }

  /** The shape of a `:.2f` text: whole dollars without leading zeros, a point, two decimals. */
  predicate TwoDecimals(p: string) {
    |p| >= 4 && p[|p| - 3] == '.' && Canonical(p[..|p| - 3])
    && IsDigit(p[|p| - 2]) && IsDigit(p[|p| - 1])
  }

  /** The amount in cents a two-decimal text denotes. */
  function PriceValue(p: string): nat
    requires |p| >= 4
  {
    DecimalValue(p[..|p| - 3]) * 100 + DecimalValue(p[|p| - 2..])
  }

  /** A price in cents written as dollars with exactly two decimals (`f"{price:.2f}"`). */
  function PriceText(cents: nat): (s: string)
    ensures TwoDecimals(s)
  {
    var whole := NatToString(cents / 100);
    var s := whole + "." + [DigitChar(cents % 100 / 10), DigitChar(cents % 10)];
    assert s[..|s| - 3] == whole;
    s
  }

  lemma DigitRoundTrip(d: nat)
    requires d < 10
    ensures DigitValue(DigitChar(d)) == d && IsDigit(DigitChar(d))
  {
  }

  lemma {:induction false} TwoDigitsValue(a: nat, b: nat)
    requires a < 10 && b < 10
    ensures DecimalValue([DigitChar(a), DigitChar(b)]) == a * 10 + b
  {
    var t := [DigitChar(a), DigitChar(b)];
    DigitRoundTrip(a);
    DigitRoundTrip(b);
    assert t[..1] == [DigitChar(a)] && t[..1][..0] == [];
    assert DecimalValue(t[..1]) == a;
    assert DecimalValue(t) == DecimalValue(t[..1]) * 10 + DigitValue(t[1]);
  }

  /** The two-decimal text reads back as the price it was written from. */
  lemma {:induction false} PriceTextReadsBack(cents: nat)
    ensures PriceValue(PriceText(cents)) == cents
  {
    var whole := NatToString(cents / 100);
    var rest := cents % 100;
    var frac := [DigitChar(rest / 10), DigitChar(cents % 10)];
    var s := PriceText(cents);
    assert s == whole + "." + frac;
    assert s[..|s| - 3] == whole && s[|s| - 2..] == frac;
    DecimalValueOfNatToString(cents / 100);
    LastDigit(cents);
    TwoDigitsValue(rest / 10, cents % 10);
    assert DecimalValue(frac) == rest;
  }

  /** Two digit characters read back as the two-digit number they spell. */
  lemma {:induction false} DigitPairValue(c: char, e: char)
    requires IsDigit(c) && IsDigit(e)
    ensures DecimalValue([c, e]) == DigitValue(c) * 10 + DigitValue(e)
  {
    var t := [c, e];
    assert t[..1] == [c] && t[..1][..0] == [];
    assert DecimalValue(t[..1]) == DigitValue(c);
  }

  /** Dollars and cents are the quotient and remainder by 100. */
  lemma SplitCents(dollars: nat, rest: nat, cents: nat)
    requires rest < 100 && dollars * 100 + rest == cents
    ensures dollars == cents / 100 && rest == cents % 100
  {
  }

  /** Two decimals are the quotient and remainder by 10. */
  lemma SplitTens(tens: nat, units: nat, n: nat)
    requires units < 10 && tens * 10 + units == n
    ensures tens == n / 10 && units == n % 10
  {
  }

  /** The last digit of the cents part is the last digit of the amount. */
  lemma LastDigit(cents: nat)
    ensures cents % 100 % 10 == cents % 10
  {
    SplitTens(cents / 100 * 10 + cents % 100 / 10, cents % 100 % 10, cents);
  }

  /** `PriceText(cents)` is the only two-decimal text that denotes `cents`. */
  lemma {:induction false} PriceTextUnique(t: string, cents: nat)
    requires TwoDecimals(t) && PriceValue(t) == cents
    ensures t == PriceText(cents)
  {
    var whole := t[..|t| - 3];
    var c, e := t[|t| - 2], t[|t| - 1];
    var a, b := DigitValue(c), DigitValue(e);
    assert t[|t| - 2..] == [c, e];
    DigitPairValue(c, e);
    SplitCents(DecimalValue(whole), a * 10 + b, cents);
    SplitTens(a, b, cents % 100);
    LastDigit(cents);
    NatToStringUnique(whole, cents / 100);
    DigitRoundTrip(a);
    DigitRoundTrip(b);
    DigitValueInjective(c, DigitChar(a));
    DigitValueInjective(e, DigitChar(b));
    assert c == DigitChar(cents % 100 / 10) && e == DigitChar(cents % 10);
    assert t == whole + "." + [c, e];
    assert PriceText(cents) == NatToString(cents / 100) + "." + [DigitChar(cents % 100 / 10), DigitChar(cents % 10)];
  }

  /** `str(drink)`: the capitalised name, then ": $", then the price with two decimals. */
  function Str(d: Drink): (s: string)
    ensures |s| >= |d.name| + 7
    ensures s[..|d.name|] == Capitalize(d.name)
    ensures s[|d.name|..|d.name| + 3] == ": $"
    ensures TwoDecimals(s[|d.name| + 3..]) && PriceValue(s[|d.name| + 3..]) == d.price
  {
    var name := Capitalize(d.name);
    var price := PriceText(d.price);
    var s := name + ": $" + price;
    assert s[..|d.name|] == name;
    assert s[|d.name|..|d.name| + 3] == ": $";
    assert s[|d.name| + 3..] == price;
    PriceTextReadsBack(d.price);
    s
  }

  /** A latte at 2.50: water 200, milk 150, coffee 24. */
  const Latte: Drink := Drink("latte", [("water", 200), ("milk", 150), ("coffee", 24)], 250)

  /** The example name capitalises to "Latte". */
  lemma LatteCapitalized()
    ensures Capitalize(Latte.name) == "Latte"
  {
    assert LowerAll("atte") == "atte";
  }

  /** 250 cents are written "2.50". */
  lemma LattePriceText()
    ensures PriceText(Latte.price) == "2.50"
  {
    assert NatToString(2) == "2";
  }

  /** The example drink shows as "Latte: $2.50". */
  lemma StrExample()
    ensures Str(Latte) == "Latte: $2.50"
  {
    LatteCapitalized();
    LattePriceText();
  }
}
