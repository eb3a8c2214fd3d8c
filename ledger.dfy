/**
 * The ledger itself: one queue of `Party` objects per currency, mutated in
 * place. Every method is specified against the value functions of `Lots`,
 * `Spend` and `Outputs`: `Queue(c)` is the queue of currency `c` read as lot
 * values, and each operation states its new queues from the old ones.
 */
module Ledgers {
  import opened Rounding
  import opened Lots
  import opened Spend
  import opened Outputs

  datatype Result<T> = Ok(value: T) | Err(message: string)

  /** A funding lot: what is left of it, and what is left of the amount originally paid in. */
  class Party {
    const txId: TxId
    var currentAmount: real
    var originalAmount: real
    const originalCurrency: Currency

    constructor (txId: TxId, currentAmount: real, originalAmount: real, originalCurrency: Currency)
      ensures Value() == Lot(txId, currentAmount, originalAmount, originalCurrency)
    {
      this.txId := txId;
      this.currentAmount := currentAmount;
      this.originalAmount := originalAmount;
      this.originalCurrency := originalCurrency;
    }

    /**
     * One iteration of the spend loop on this lot, with `remainingAmount`
     * principal and `remainingFee` fee still owed: it is `Take` on the lot.
     */
    method Spend(remainingAmount: real, remainingFee: real)
      returns (newAmount: real, newFee: real, taken: seq<SpendRecord>)
      requires currentAmount >= 0.0 && remainingAmount >= 0.0 && remainingFee >= 0.0
      requires remainingAmount + remainingFee > 0.0
      modifies this
      ensures var s := Take(old(Value()), remainingAmount, remainingFee);
        Value() == s.lot && newAmount == s.remainingAmount && newFee == s.remainingFee && taken == s.taken
    {
      ghost var s := Take(Value(), remainingAmount, remainingFee);
      var available := currentAmount;
      var totalToTake, amountTaken, feeTaken;
      if remainingAmount + remainingFee <= available {
        totalToTake := remainingAmount + remainingFee;
        if totalToTake > 0.0 {
          amountTaken := remainingAmount;
          feeTaken := remainingFee;
        } else {
          amountTaken := 0.0;
          feeTaken := 0.0;
        }
        currentAmount := currentAmount - totalToTake;
        newAmount := 0.0;
        newFee := 0.0;
      } else {
        totalToTake := available;
        if totalToTake > 0.0 {
          var ratio := remainingAmount / (remainingAmount + remainingFee);
          amountTaken := ratio * totalToTake;
          feeTaken := totalToTake - amountTaken;
        } else {
          amountTaken := 0.0;
          feeTaken := 0.0;
        }
        newAmount := remainingAmount - amountTaken;
        newFee := remainingFee - feeTaken;
        currentAmount := 0.0;
      }
      taken := [];
      if totalToTake > 0.0 {
        var originalUsed := if available > 0.0 then originalAmount * (totalToTake / available) else 0.0;
        taken := [SpendRecord(txId, amountTaken, feeTaken, originalUsed, originalCurrency)];
        assert s.taken != [];
        assert s.taken[0].amountTaken == amountTaken;
        assert s.taken[0].feeTaken == feeTaken;
        assert s.taken[0].originalUsed == originalUsed;
        originalAmount := originalAmount - originalUsed;
      }
    }

    /** The lot value this object holds now. */
    function Value(): Lot
      reads this
    {
      Lot(txId, currentAmount, originalAmount, originalCurrency)
    }
  }

  /** The values of the parties of a queue, in order. */
  function View(q: seq<Party>): (ls: seq<Lot>)
    reads q
    ensures |ls| == |q| && forall i {:trigger ls[i]} | 0 <= i < |q| :: ls[i] == q[i].Value()
  {
    seq(|q|, i reads q requires 0 <= i < |q| => q[i].Value())
  }

  /** The parties of a queue. */
  function Elems(q: seq<Party>): set<Party> {
    set p | p in q
  }

  /** No party is in `q` twice. */
  predicate Distinct(q: seq<Party>) {
    forall i, j | 0 <= i < j < |q| :: q[i] != q[j]
  }

  /**
   * The shape of the queues, apart from the parties' fields: every party of
   * a queue is in `owned`, and no party is in a queue twice or in two queues.
   */
  predicate Shaped(queues: map<Currency, seq<Party>>, owned: set<Party>) {
    && (forall c | c in queues :: Elems(queues[c]) <= owned && Distinct(queues[c]))
    && (forall c, c' | c in queues && c' in queues && c != c' :: Elems(queues[c]) !! Elems(queues[c']))
  }

  /** Appending a party nobody owns yet keeps the shape. */
  lemma AppendKeepsShape(queues: map<Currency, seq<Party>>, owned: set<Party>, c: Currency, p: Party)
    requires Shaped(queues, owned) && p !in owned
    ensures Shaped(queues[c := (if c in queues then queues[c] else []) + [p]], owned + {p})
  {
    var q := if c in queues then queues[c] else [];
    assert Elems(q + [p]) == Elems(q) + {p};
  }

  /** Popping the front of a queue keeps the shape. */
  lemma PopKeepsShape(queues: map<Currency, seq<Party>>, owned: set<Party>, c: Currency)
    requires Shaped(queues, owned) && c in queues && queues[c] != []
    ensures Shaped(queues[c := queues[c][1..]], owned)
  {
    assert Elems(queues[c][1..]) <= Elems(queues[c]);
  }

  /** The lot a deposit of `amount` with `fee` appends: the net amount, never below zero, and the gross as original. */
  function DepositedLot(amount: real, currency: Currency, txId: TxId, fee: real): (l: Lot)
    ensures l.currentAmount >= 0.0 && l.currentAmount >= amount - fee
    ensures l.currentAmount == 0.0 || l.currentAmount == amount - fee
    ensures l.txId == txId && l.originalAmount == amount && l.originalCurrency == currency
  {
    Lot(txId, if amount - fee < 0.0 then 0.0 else amount - fee, amount, currency)
  }

  /** The error the spend raises when the funds check fails. */
  function InsufficientFunds(currency: Currency): string {
    "Insufficient funds in " + currency
  }

  lemma ConcatAssociates<T>(a: seq<T>, b: seq<T>, c: seq<T>)
    ensures a + (b + c) == (a + b) + c
  {
  }

  /** The loop of `withdraw` that turns spend records into reported entries, one per record, in order. */
  method ReportEntries(sources: seq<SpendRecord>) returns (result: seq<Withdrawal>)
    ensures result == Report(sources)
  {
    result := [];
    for i := 0 to |sources|
      invariant result == Report(sources[..i])
    {
      ReportSnoc(sources[..i], sources[i]);
      assert sources[..i + 1] == sources[..i] + [sources[i]];
      result := result + [Withdrawn(sources[i])];
    }
    assert sources[..|sources|] == sources;
  }

  /** The lots of one more record extend the lots of a prefix of the records. */
  lemma ConvertedPrefixStep(base: seq<Lot>, sources: seq<SpendRecord>, i: nat, amountFrom: real, amountTo: real)
    requires i < |sources|
    ensures base + Converted(sources[..i], amountFrom, amountTo) + LotsFor(sources[i], amountFrom, amountTo)
         == base + Converted(sources[..i + 1], amountFrom, amountTo)
  {
    ConvertedSnoc(sources[..i], sources[i], amountFrom, amountTo);
    assert sources[..i + 1] == sources[..i] + [sources[i]];
    ConcatAssociates(base, Converted(sources[..i], amountFrom, amountTo), LotsFor(sources[i], amountFrom, amountTo));
  }

  class Ledger {
    var ledger: map<Currency, seq<Party>>
    var totalDeposited: map<Currency, real>
    ghost var Repr: set<Party>

    /**
     * Every party the ledger owns holds a non-negative balance, every party
     * of a queue is owned, and no party is in a queue twice or in two queues.
     */
    ghost predicate Valid()
      reads this, Repr
    {
      && Shaped(ledger, Repr)
      && (forall p | p in Repr :: p.currentAmount >= 0.0)
    }

    /** The lots of `currency`, front first; a currency without a queue has none. */
    function Queue(currency: Currency): (q: seq<Lot>)
      reads this`ledger, if currency in ledger then Elems(ledger[currency]) else {}
      ensures currency in ledger ==> |q| == |ledger[currency]|
    {
      if currency in ledger then View(ledger[currency]) else []
    }

    /** The exact spendable amount of `currency`. */
    function Holdings(currency: Currency): real
      reads this`ledger, if currency in ledger then Elems(ledger[currency]) else {}
    {
      Total(Queue(currency))
    }

    /** No lot of a queue holds a negative balance, so no currency holds a negative amount. */
    lemma QueueIsFunded(currency: Currency)
      requires Valid()
      ensures NonNegative(Queue(currency)) && Holdings(currency) >= 0.0
    {
      if currency in ledger {
        forall i | 0 <= i < |ledger[currency]| ensures Queue(currency)[i].currentAmount >= 0.0 {
          assert ledger[currency][i] in Elems(ledger[currency]);
        }
      }
      TotalNonNegative(Queue(currency));
    }

    function Deposited(currency: Currency): real
      reads this
    {
      if currency in totalDeposited then totalDeposited[currency] else 0.0
    }

    /**
     * Every currency with a queue, empty ones included, with its holdings
     * rounded to six places: off by at most half a unit, never negative.
     */
    function Balance(): (b: map<Currency, real>)
      reads this, Repr
      requires Valid()
      ensures b.Keys == ledger.Keys
      ensures forall c | c in b ::
        && SixPlaces(b[c]) && b[c] >= 0.0
        && Holdings(c) - HalfUnit <= b[c] <= Holdings(c) + HalfUnit
    {
      forall c ensures Holdings(c) >= 0.0 {
        QueueIsFunded(c);
      }
      map c | c in ledger :: Round6(Holdings(c))
    }

    constructor ()
      ensures Valid() && ledger == map[] && totalDeposited == map[]
    {
      ledger := map[];
      totalDeposited := map[];
      Repr := {};
    }

    /** Appends `party`, which the ledger does not own yet, at the tail of `currency`'s queue. */
    method Append(currency: Currency, party: Party)
      requires Valid() && party !in Repr && party.currentAmount >= 0.0
      modifies this
      ensures Valid() && Repr == old(Repr) + {party} && totalDeposited == old(totalDeposited)
      ensures ledger.Keys == old(ledger.Keys) + {currency}
      ensures Queue(currency) == old(Queue(currency)) + [party.Value()]
      ensures forall c | c != currency :: Queue(c) == old(Queue(c))
    {
      var queue := if currency in ledger then ledger[currency] else [];
      AppendKeepsShape(ledger, Repr, currency, party);
      ledger := ledger[currency := queue + [party]];
      Repr := Repr + {party};
      assert View(queue + [party]) == View(queue) + [party.Value()];
      forall c | c != currency
        ensures Queue(c) == old(Queue(c))
      {
        if c in ledger {
          assert ledger[c] == old(ledger[c]);
        }
      }
    }

    /**
     * Appends one lot for the net amount at the tail of `currency`'s queue
     * and adds the gross amount to what was deposited in it; every other
     * queue and every earlier lot stay as they were.
     */
    method Deposit(amount: real, currency: Currency, txId: TxId, fee: real)
      requires Valid()
      modifies this
      ensures Valid() && old(Repr) <= Repr
      ensures ledger.Keys == old(ledger.Keys) + {currency}
      ensures Queue(currency) == old(Queue(currency)) + [DepositedLot(amount, currency, txId, fee)]
      ensures forall c | c != currency :: Queue(c) == old(Queue(c))
      ensures totalDeposited == old(totalDeposited)[currency := old(Deposited(currency)) + amount]
    {
      var netAmount := amount - fee;
      if netAmount < 0.0 {
        netAmount := 0.0;
      }
      var party := new Party(txId, netAmount, amount, currency);
      totalDeposited := totalDeposited[currency := Deposited(currency) + amount];
      Append(currency, party);
    }

    /**
     * One iteration of the spend loop on the front lot of `currency`: takes
     * from it what it can of what is still owed, records the take, and pops
     * the lot once it is used up. It is `Take` on that lot, and so one step
     * of `Drain`.
     */
    method SpendFront(currency: Currency, remainingAmount: real, remainingFee: real)
      returns (newAmount: real, newFee: real, taken: seq<SpendRecord>)
      requires Valid() && currency in ledger && ledger[currency] != []
      requires remainingAmount >= 0.0 && remainingFee >= 0.0 && remainingAmount + remainingFee > 0.0
      modifies this, ledger[currency][0]
      ensures Valid() && Repr == old(Repr) && totalDeposited == old(totalDeposited)
      ensures ledger.Keys == old(ledger.Keys)
      ensures forall c | c != currency :: Queue(c) == old(Queue(c))
      ensures NonNegative(Queue(currency)) && newAmount >= 0.0 && newFee >= 0.0
      // each round either covers the request or pops the front lot
      ensures newAmount + newFee > 0.0 ==> |Queue(currency)| < |old(Queue(currency))|
      ensures var d := Drain(old(Queue(currency)), remainingAmount, remainingFee);
        var d' := Drain(Queue(currency), newAmount, newFee);
        && d.records == taken + d'.records && d.rest == d'.rest
        && d.remainingAmount == d'.remainingAmount && d.remainingFee == d'.remainingFee
    {
      ghost var q := Queue(currency);
      QueueIsFunded(currency);
      DrainStep(q, remainingAmount, remainingFee);
      newAmount, newFee, taken := TakeFront(currency, remainingAmount, remainingFee);
      QueueIsFunded(currency);
    }

    /** The take itself: `Take` on the front lot, which is popped once it is used up. */
    method TakeFront(currency: Currency, remainingAmount: real, remainingFee: real)
      returns (newAmount: real, newFee: real, taken: seq<SpendRecord>)
      requires Valid() && currency in ledger && ledger[currency] != []
      requires remainingAmount >= 0.0 && remainingFee >= 0.0 && remainingAmount + remainingFee > 0.0
      modifies this, ledger[currency][0]
      ensures Valid() && Repr == old(Repr) && totalDeposited == old(totalDeposited)
      ensures ledger.Keys == old(ledger.Keys)
      ensures var q := old(Queue(currency));
        var s := Take(q[0], remainingAmount, remainingFee);
        && newAmount == s.remainingAmount && newFee == s.remainingFee && taken == s.taken
        && Queue(currency) == if s.lot.currentAmount <= 0.0 then q[1..] else [s.lot] + q[1..]
      ensures forall c | c != currency :: Queue(c) == old(Queue(c))
    {
      var queue := ledger[currency];
      var party := queue[0];
      ghost var q := Queue(currency);
      newAmount, newFee, taken := party.Spend(remainingAmount, remainingFee);
      forall c | c != currency
        ensures Queue(c) == old(Queue(c))
      {
        if c in ledger {
          assert party !in Elems(ledger[c]);
        }
      }
      assert View(queue[1..]) == q[1..];
      if party.currentAmount <= 0.0 {
        PopFront(currency);
      } else {
        assert View(queue) == [party.Value()] + View(queue[1..]);
      }
    }

    /** Drops the front lot of `currency`, once it is used up. */
    method PopFront(currency: Currency)
      requires Valid() && currency in ledger && ledger[currency] != []
      modifies this
      ensures Valid() && Repr == old(Repr) && totalDeposited == old(totalDeposited)
      ensures ledger.Keys == old(ledger.Keys)
      ensures Queue(currency) == old(Queue(currency))[1..]
      ensures forall c | c != currency :: Queue(c) == old(Queue(c))
    {
      var queue := ledger[currency];
      assert View(queue[1..]) == Queue(currency)[1..];
      PopKeepsShape(ledger, Repr, currency);
      ledger := ledger[currency := queue[1..]];
    }
  
    /**
     * The spend loop: refuses with an error, changing nothing, when the
     * currency does not hold `totalAmount + fee`; otherwise drains that much
     * from the front of its queue and returns the records, as `Drain` does.
     */
    method SpendFunds(currency: Currency, totalAmount: real, fee: real) returns (r: Result<seq<SpendRecord>>)
      requires Valid() && totalAmount >= 0.0 && fee >= 0.0
      modifies this, Repr
      ensures Valid() && Repr == old(Repr) && totalDeposited == old(totalDeposited)
      ensures ledger.Keys == old(ledger.Keys)
      ensures forall c | c != currency :: Queue(c) == old(Queue(c))
      ensures !Sufficient(old(Queue(currency)), totalAmount, fee) ==>
        r == Err(InsufficientFunds(currency)) && Queue(currency) == old(Queue(currency))
      ensures Sufficient(old(Queue(currency)), totalAmount, fee) ==>
        var d := Drain(old(Queue(currency)), totalAmount, fee);
        r == Ok(d.records) && Queue(currency) == d.rest
    {
      ghost var q0 := Queue(currency);
      if Holdings(currency) < totalAmount + fee {
        return Err(InsufficientFunds(currency));
      }
      QueueIsFunded(currency);
      ghost var d0 := Drain(q0, totalAmount, fee);
      DrainCompletes(q0, totalAmount, fee);
      var remainingAmount, remainingFee := totalAmount, fee;
      var sources := [];
      while remainingAmount + remainingFee > 0.0
        invariant Valid() && Repr == old(Repr) && totalDeposited == old(totalDeposited)
        invariant ledger.Keys == old(ledger.Keys)
        invariant forall c | c != currency :: Queue(c) == old(Queue(c))
        invariant remainingAmount >= 0.0 && remainingFee >= 0.0 && NonNegative(Queue(currency))
        invariant var d := Drain(Queue(currency), remainingAmount, remainingFee);
          && sources + d.records == d0.records && d.rest == d0.rest
          && d.remainingAmount == 0.0 && d.remainingFee == 0.0
        decreases |Queue(currency)|, if remainingAmount + remainingFee > 0.0 then 1 else 0
      {
        if currency !in ledger || ledger[currency] == [] {
          assert false;
          break;
        }
        var taken;
        remainingAmount, remainingFee, taken := SpendFront(currency, remainingAmount, remainingFee);
        ConcatAssociates(sources, taken, Drain(Queue(currency), remainingAmount, remainingFee).records);
        sources := sources + taken;
        QueueIsFunded(currency);
      }
      assert remainingAmount == 0.0 && remainingFee == 0.0;
      assert Drain(Queue(currency), 0.0, 0.0) == Drained([], Queue(currency), 0.0, 0.0);
      assert sources == d0.records && Queue(currency) == d0.rest;
      return Ok(sources);
    }

    /**
     * Spends `amount` and `fee` from `currency` and reports, for every lot
     * drawn on, the principal taken and the original amount used, rounded
     * to six places.
     */
    method Withdraw(amount: real, currency: Currency, fee: real) returns (r: Result<seq<Withdrawal>>)
      requires Valid() && amount >= 0.0 && fee >= 0.0
      modifies this, Repr
      ensures Valid() && Repr == old(Repr) && totalDeposited == old(totalDeposited)
      ensures ledger.Keys == old(ledger.Keys)
      ensures forall c | c != currency :: Queue(c) == old(Queue(c))
      ensures !Sufficient(old(Queue(currency)), amount, fee) ==>
        r == Err(InsufficientFunds(currency)) && Queue(currency) == old(Queue(currency))
      ensures Sufficient(old(Queue(currency)), amount, fee) ==>
        var d := Drain(old(Queue(currency)), amount, fee);
        r == Ok(Report(d.records)) && Queue(currency) == d.rest
    {
      var spent := SpendFunds(currency, amount, fee);
      if spent.Err? {
        return Err(spent.message);
      }
      var result := ReportEntries(spent.value);
      return Ok(result);
    }

    /** Gives `currency` a queue, an empty one, unless it has one already. */
    method OpenQueue(currency: Currency)
      requires Valid()
      modifies this
      ensures Valid() && Repr == old(Repr) && totalDeposited == old(totalDeposited)
      ensures ledger.Keys == old(ledger.Keys) + {currency}
      ensures forall c :: Queue(c) == old(Queue(c))
    {
      if currency !in ledger {
        assert Elems([]) == {};
        ledger := ledger[currency := []];
      }
    }

    /**
     * The loop of `convert` over the spend records: every record that took
     * principal becomes a new lot at the tail of `currency`'s queue, holding
     * its share of `amountTo` and carrying the record's provenance.
     */
    method AppendConverted(currency: Currency, sources: seq<SpendRecord>, amountFrom: real, amountTo: real)
      requires Valid() && currency in ledger && amountFrom >= 0.0 && amountTo >= 0.0
      modifies this
      ensures Valid() && old(Repr) <= Repr && totalDeposited == old(totalDeposited)
      ensures ledger.Keys == old(ledger.Keys)
      ensures Queue(currency) == old(Queue(currency)) + Converted(sources, amountFrom, amountTo)
      ensures forall c | c != currency :: Queue(c) == old(Queue(c))
    {
      ghost var base := Queue(currency);
      for i := 0 to |sources|
        invariant Valid() && old(Repr) <= Repr && totalDeposited == old(totalDeposited)
        invariant ledger.Keys == old(ledger.Keys)
        invariant Queue(currency) == base + Converted(sources[..i], amountFrom, amountTo)
        invariant forall c | c != currency :: Queue(c) == old(Queue(c))
      {
        ConvertedPrefixStep(base, sources, i, amountFrom, amountTo);
        AppendConvertedLot(currency, sources[i], amountFrom, amountTo);
      }
      assert sources[..|sources|] == sources;
    }

    /** One round of that loop: the lot for `source`, if it took principal. */
    method AppendConvertedLot(currency: Currency, source: SpendRecord, amountFrom: real, amountTo: real)
      requires Valid() && currency in ledger && amountFrom >= 0.0 && amountTo >= 0.0
      modifies this
      ensures Valid() && old(Repr) <= Repr && totalDeposited == old(totalDeposited)
      ensures ledger.Keys == old(ledger.Keys)
      ensures Queue(currency) == old(Queue(currency))
        + LotsFor(source, amountFrom, amountTo)
      ensures forall c | c != currency :: Queue(c) == old(Queue(c))
    {
      if source.amountTaken > 0.0 {
        var ratio := if amountFrom > 0.0 then source.amountTaken / amountFrom else 0.0;
        var party := new Party(source.txId, ratio * amountTo, source.originalUsed, source.originalCurrency);
        assert party.Value() == ConvertedLot(source, amountFrom, amountTo);
        Append(currency, party);
      } else {
        assert old(Queue(currency)) + [] == old(Queue(currency));
      }
    }

    /**
     * Spends `amountFrom` and `fee` from `currencyFrom` and re-deposits the
     * principal taken as new lots of `currencyTo`, rescaled to `amountTo`;
     * refuses, changing nothing, when `currencyFrom` cannot cover the spend.
     */
    method Convert(amountFrom: real, currencyFrom: Currency, amountTo: real, currencyTo: Currency, fee: real)
      returns (r: Result<()>)
      requires Valid() && amountFrom >= 0.0 && fee >= 0.0 && amountTo >= 0.0
      modifies this, Repr
      ensures Valid() && old(Repr) <= Repr && totalDeposited == old(totalDeposited)
      ensures !Sufficient(old(Queue(currencyFrom)), amountFrom, fee) ==>
        && r == Err(InsufficientFunds(currencyFrom))
        && ledger.Keys == old(ledger.Keys) && forall c :: Queue(c) == old(Queue(c))
      ensures Sufficient(old(Queue(currencyFrom)), amountFrom, fee) ==>
        var d := Drain(old(Queue(currencyFrom)), amountFrom, fee);
        var target := if currencyTo == currencyFrom then d.rest else old(Queue(currencyTo));
        && r == Ok(())
        && ledger.Keys == old(ledger.Keys) + {currencyTo}
        && Queue(currencyTo) == target + Converted(d.records, amountFrom, amountTo)
        && (currencyFrom != currencyTo ==> Queue(currencyFrom) == d.rest)
        && forall c | c != currencyFrom && c != currencyTo :: Queue(c) == old(Queue(c))
    {
      var spent := SpendFunds(currencyFrom, amountFrom, fee);
      if spent.Err? {
        return Err(spent.message);
      }
      OpenQueue(currencyTo);
      AppendConverted(currencyTo, spent.value, amountFrom, amountTo);
      return Ok(());
    }
  }
}
