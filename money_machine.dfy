/**
 * `MoneyMachine` (day16/coffee_machine/money_machine.py): a profit and
 * transaction ledger that its methods update in place.  The source keeps
 * money as two-place `Decimal`; here it is integer cents, which is exact for
 * two places.  The one float the ledger rounds itself, the initial profit, is
 * taken as the exact real value of that float.
 */
module Money {
  import opened Wrappers
  import opened Coins

  /** ValueError raised by the constructor or `make_payment`, and EOFError while reading coins. */
  datatype MoneyError = NegativeProfit | NonPositiveCost | InputClosed

  /** A payment that went through, with the change handed back, or one refunded as too little. */
  datatype Payment = Accepted(change: nat) | Refunded(payment: nat)

  /** `quantize(Decimal('0.01'), rounding=ROUND_HALF_UP)` of a non-negative amount, in cents. */
  function RoundHalfUpToCents(x: real): (cents: nat)
    requires x >= 0.0
    ensures (cents as real) - 0.5 <= x * 100.0 < (cents as real) + 0.5
  {
    (x * 100.0 + 0.5).Floor
  }

  /** 10.5 becomes 10.50, and a tie such as 0.125 rounds up to 0.13. */
  lemma RoundingExamples()
    ensures RoundHalfUpToCents(10.5) == 1050
    ensures RoundHalfUpToCents(0.125) == 13
  {
  }

  class MoneyMachine {
    var profit: int
    var transactions: nat

    constructor (initialProfit: real)
      requires initialProfit >= 0.0
      ensures profit == RoundHalfUpToCents(initialProfit) && transactions == 0
    {
      profit := RoundHalfUpToCents(initialProfit);
      transactions := 0;
    }

    /** `MoneyMachine(initial_profit)`: ValueError for a negative amount, else a fresh ledger. */
    static method New(initialProfit: real) returns (r: Result<MoneyMachine, MoneyError>)
      ensures r.Failure? <==> initialProfit < 0.0
      ensures r.Failure? ==> r.error == NegativeProfit
      ensures r.Success? ==>
        fresh(r.value) && r.value.transactions == 0 && r.value.profit == RoundHalfUpToCents(initialProfit)
    {
      if initialProfit < 0.0 {
        return Failure(NegativeProfit);
      }
      var m := new MoneyMachine(initialProfit);
      return Success(m);
    }

    /** `profit` (and `get_earnings`). */
    function Profit(): (p: int)
      reads this
      ensures p == profit
    {
      profit
    }

    /**
     * `make_payment(cost)`: a cost of zero or less is refused before any coin
     * is read; a payment below the cost is refunded and changes nothing; any
     * other payment earns exactly the cost, counts one transaction and hands
     * back the difference as change.
     */
    method MakePayment(cost: int, entries: seq<Entry>) returns (r: Result<Payment, MoneyError>)
      modifies this
      ensures cost <= 0 ==> r == Failure(NonPositiveCost)
      ensures cost > 0 && Tendered(entries).None? ==> r == Failure(InputClosed)
      ensures cost > 0 && Tendered(entries).Some? ==>
        var paid := Tendered(entries).value;
        r == if paid < cost then Success(Refunded(paid)) else Success(Accepted(paid - cost))
      ensures r.Success? && r.value.Accepted? ==>
        profit == old(profit) + cost && transactions == old(transactions) + 1
        && Tendered(entries) == Some(cost + r.value.change)
      ensures !(r.Success? && r.value.Accepted?) ==> profit == old(profit) && transactions == old(transactions)
    {
      if cost <= 0 {
        return Failure(NonPositiveCost);
      }
      var payment := ReadCoins(entries);
      if payment.None? {
        return Failure(InputClosed);
      }
      if payment.value < cost {
        return Success(Refunded(payment.value));
      }
      var change := payment.value - cost;
      profit := profit + cost;
      transactions := transactions + 1;
      return Success(Accepted(change));
    }

    /** `add_money(amount)`: one more transaction worth `amount`. */
    method AddMoney(amount: int)
      modifies this
      ensures profit == old(profit) + amount && transactions == old(transactions) + 1
    {
      profit := profit + amount;
      transactions := transactions + 1;
    }

    /** `set_earnings(amount)`: replaces the profit; the transaction count stays. */
    method SetEarnings(amount: int)
      modifies this
      ensures profit == amount && transactions == old(transactions)
    {
      profit := amount;
    }
  }
}
