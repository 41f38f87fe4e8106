/**
 * Coin summation, shared by `MoneyMachine.process_coins`
 * (day16/coffee_machine/money_machine.py) and `process_coins`
 * (day15/my_main.py).  Both ask for a count of quarters, dimes, nickles and
 * pennies, in that order, and ask again for the same coin whenever the answer
 * is not an integer or is negative.  The console is modelled as the sequence
 * of answers it will give; running out of answers is Python's EOFError.
 * Amounts are integer cents, so the final two-place rounding changes nothing.
 */
module Coins {
  import opened Wrappers

  /** One answer typed at a prompt: `int(...)` either yields a number or raises ValueError. */
  datatype Entry = Number(n: int) | NotANumber

  /** The coin kinds the prompts ask for, in order: quarters, dimes, nickles, pennies. */
  const CoinKinds: nat := 4

  /** What `n` coins of the kind asked for in position `kind` are worth: 25, 10, 5 or 1 cent each. */
  function CoinWorth(kind: nat, n: nat): nat
    requires kind < CoinKinds
  {
    if kind == 0 then 25 * n
    else if kind == 1 then 10 * n
    else if kind == 2 then 5 * n
    else n
  }

  predicate Accepted(e: Entry) {
    e.Number? && e.n >= 0
  }

  /** What one answer contributes to the accepted counts. */
  function Accept(e: Entry): seq<nat> {
    if Accepted(e) then [e.n as nat] else []
  }

  /** The answers the prompts accept, in order; every other answer is asked again. */
  function AcceptedCounts(entries: seq<Entry>): (counts: seq<nat>)
    ensures |counts| <= |entries|
  {
    if entries == [] then []
    else AcceptedCounts(entries[..|entries| - 1]) + Accept(entries[|entries| - 1])
  }

  /** The value of the first `|counts|` coin kinds, given how many of each were inserted. */
  function Worth(counts: seq<nat>): nat
    requires |counts| <= CoinKinds
  {
    if counts == [] then 0
    else Worth(counts[..|counts| - 1]) + CoinWorth(|counts| - 1, counts[|counts| - 1])
  }

  /** The total the four prompts arrive at, or None when the answers run out first. */
  function Tendered(entries: seq<Entry>): Option<nat> {
    var counts := AcceptedCounts(entries);
    if |counts| < CoinKinds then None else Some(Worth(counts[..CoinKinds]))
  }

  /** Counts of quarters, dimes, nickles and pennies are worth 25, 10, 5 and 1 cents each. */
  lemma WorthOfFour(q: nat, d: nat, n: nat, p: nat)
    ensures Worth([q, d, n, p]) == 25 * q + 10 * d + 5 * n + p
  {
    assert [q, d, n, p][..3] == [q, d, n];
    assert [q, d, n][..2] == [q, d];
    assert [q, d][..1] == [q];
    assert [q][..0] == [];
    assert Worth([q]) == 25 * q;
    assert Worth([q, d]) == 25 * q + 10 * d;
    assert Worth([q, d, n]) == 25 * q + 10 * d + 5 * n;
  }

  lemma {:induction false} AcceptedCountsAppend(a: seq<Entry>, b: seq<Entry>)
    ensures AcceptedCounts(a + b) == AcceptedCounts(a) + AcceptedCounts(b)
    decreases |b|
  {
    if b == [] {
      assert a + b == a;
    } else {
      var last := |b| - 1;
      assert (a + b)[..|a + b| - 1] == a + b[..last];
      assert (a + b)[|a + b| - 1] == b[last];
      AcceptedCountsAppend(a, b[..last]);
    }
  }

  /** A rejected answer, wherever it comes, is neither added nor used up a coin: the total is the same without it. */
  lemma {:induction false} RejectedAnswerIgnored(before: seq<Entry>, e: Entry, after: seq<Entry>)
    requires !Accepted(e)
    ensures Tendered(before + [e] + after) == Tendered(before + after)
  {
    var withE := before + [e];
    AcceptedCountsAppend(withE, after);
    AcceptedCountsAppend(before, [e]);
    AcceptedCountsAppend(before, after);
    assert [e][..0] == [];
    assert AcceptedCounts([e]) == AcceptedCounts([]) + Accept(e) == [];
    assert AcceptedCounts(withE) == AcceptedCounts(before);
    assert AcceptedCounts(withE + after) == AcceptedCounts(before + after);
  }

  /** One more answer extends the accepted counts by what that answer contributes. */
  lemma AcceptedCountsStep(entries: seq<Entry>, pos: nat)
    requires pos < |entries|
    ensures AcceptedCounts(entries[..pos + 1]) == AcceptedCounts(entries[..pos]) + Accept(entries[pos])
  {
    assert entries[..pos + 1][..pos] == entries[..pos];
  }

  /** Accepting `n` coins of kind `coin` adds their value to the worth of what was accepted before. */
  lemma WorthStep(entries: seq<Entry>, pos: nat, next: nat, coin: nat, n: nat)
    requires pos <= next <= |entries| && coin < CoinKinds
    requires |AcceptedCounts(entries[..pos])| == coin
    requires AcceptedCounts(entries[..next]) == AcceptedCounts(entries[..pos]) + [n]
    ensures |AcceptedCounts(entries[..next])| == coin + 1
    ensures Worth(AcceptedCounts(entries[..next])) == Worth(AcceptedCounts(entries[..pos])) + CoinWorth(coin, n)
  {
    var counts := AcceptedCounts(entries[..pos]);
    assert (counts + [n])[..coin] == counts;
  }

  /** Once every coin kind has its count, the answers after that are never read. */
  lemma TenderedOnceAllCounted(entries: seq<Entry>, pos: nat)
    requires pos <= |entries| && |AcceptedCounts(entries[..pos])| == CoinKinds
    ensures Tendered(entries) == Some(Worth(AcceptedCounts(entries[..pos])))
  {
    AcceptedCountsAppend(entries[..pos], entries[pos..]);
    assert entries[..pos] + entries[pos..] == entries;
    assert AcceptedCounts(entries)[..CoinKinds] == AcceptedCounts(entries[..pos]);
  }

  /**
   * The retry loop of `process_coins` for one coin kind: read answers from
   * `pos` on until one is a non-negative integer, or the answers run out.
   */
  method ReadCount(entries: seq<Entry>, pos: nat) returns (count: Option<nat>, next: nat)
    requires pos <= |entries|
    ensures pos <= next <= |entries|
    ensures count.Some? ==> AcceptedCounts(entries[..next]) == AcceptedCounts(entries[..pos]) + [count.value]
    ensures count.None? ==> AcceptedCounts(entries) == AcceptedCounts(entries[..pos])
  {
    next := pos;
    while true
      invariant pos <= next <= |entries|
      invariant AcceptedCounts(entries[..next]) == AcceptedCounts(entries[..pos])
      decreases |entries| - next
    {
      if next == |entries| {
        assert entries[..next] == entries;
        return None, next;
      }
      var e := entries[next];
      AcceptedCountsStep(entries, next);
      next := next + 1;
      if e.Number? && e.n >= 0 {
        return Some(e.n as nat), next;
      }
    }
  }

  /**
   * `process_coins`: for each coin kind in turn, read answers until one is a
   * non-negative integer and add that many coins' worth.  Returns None when
   * the answers run out (EOFError).
   */
  method ReadCoins(entries: seq<Entry>) returns (total: Option<nat>)
    ensures total == Tendered(entries)
  {
    var sum := 0;
    var pos := 0;
    var coin := 0;
    while coin < CoinKinds
      invariant 0 <= coin <= CoinKinds && 0 <= pos <= |entries|
      invariant |AcceptedCounts(entries[..pos])| == coin
      invariant sum == Worth(AcceptedCounts(entries[..pos]))
    {
      var count, next := ReadCount(entries, pos);
      if count.None? {
        return None;
      }
      WorthStep(entries, pos, next, coin, count.value);
      sum := sum + CoinWorth(coin, count.value);
      pos := next;
      coin := coin + 1;
    }
    TenderedOnceAllCounted(entries, pos);
    return Some(sum);
  }

  lemma AcceptedFour(a: Entry, b: Entry, c: Entry, d: Entry)
    ensures AcceptedCounts([a, b, c, d]) == Accept(a) + Accept(b) + Accept(c) + Accept(d)
  {
    assert [a, b, c, d][..3] == [a, b, c];
    assert [a, b, c][..2] == [a, b];
    assert [a, b][..1] == [a];
    assert [a][..0] == [];
    assert AcceptedCounts([a]) == Accept(a);
    assert AcceptedCounts([a, b]) == Accept(a) + Accept(b);
    assert AcceptedCounts([a, b, c]) == Accept(a) + Accept(b) + Accept(c);
  }

  /** Answers 2, 1, 1, 5 make 70 cents (0.70). */
  lemma TenderedSeventy()
    ensures Tendered([Number(2), Number(1), Number(1), Number(5)]) == Some(70)
  {
    AcceptedFour(Number(2), Number(1), Number(1), Number(5));
    assert AcceptedCounts([Number(2), Number(1), Number(1), Number(5)]) == [2, 1, 1, 5];
    assert [2, 1, 1, 5][..4] == [2, 1, 1, 5];
    WorthOfFour(2, 1, 1, 5);
  }

  /** A negative answer is asked again: -1, 2, 1, 1, 5 still make 70 cents. */
  lemma TenderedAfterNegative()
    ensures Tendered([Number(-1), Number(2), Number(1), Number(1), Number(5)]) == Some(70)
  {
    RejectedAnswerIgnored([], Number(-1), [Number(2), Number(1), Number(1), Number(5)]);
    assert [] + [Number(-1)] + [Number(2), Number(1), Number(1), Number(5)]
      == [Number(-1), Number(2), Number(1), Number(1), Number(5)];
    assert [] + [Number(2), Number(1), Number(1), Number(5)] == [Number(2), Number(1), Number(1), Number(5)];
    TenderedSeventy();
  }

  /** Answers 2, 1, 1, 1 make 66 cents (0.66). */
  lemma TenderedSixtySix()
    ensures Tendered([Number(2), Number(1), Number(1), Number(1)]) == Some(66)
  {
    AcceptedFour(Number(2), Number(1), Number(1), Number(1));
    assert AcceptedCounts([Number(2), Number(1), Number(1), Number(1)]) == [2, 1, 1, 1];
    assert [2, 1, 1, 1][..4] == [2, 1, 1, 1];
    WorthOfFour(2, 1, 1, 1);
  }
}
