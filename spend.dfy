/**
 * The spend loop of the ledger as a function over lot values, and what it
 * guarantees: it drains exactly what was asked when the queue holds enough,
 * splits every take between principal and fee in the ratio of the request,
 * consumes lots strictly from the front, and reports for every lot the
 * original amount it attributes.
 */
module Spend {
  import opened Rounding
  import opened Lots

  /**
   * The spend loop run on queue `q` with `remainingAmount` principal and
   * `remainingFee` fee to drain. An empty queue with something still owed is
   * the loop's defensive `break`; `DrainCompletes` shows a sufficient queue
   * never gets there.
   */
  function Drain(q: seq<Lot>, remainingAmount: real, remainingFee: real): (d: Drained)
    requires NonNegative(q) && remainingAmount >= 0.0 && remainingFee >= 0.0
    ensures NonNegative(d.rest) && d.remainingAmount >= 0.0 && d.remainingFee >= 0.0
    ensures |d.rest| <= |q|
    // no record is a zero take
    ensures forall r | r in d.records ::
      r.amountTaken >= 0.0 && r.feeTaken >= 0.0 && r.amountTaken + r.feeTaken > 0.0
    decreases |q| + (if remainingAmount + remainingFee > 0.0 then 1 else 0)
  {
    if remainingAmount + remainingFee <= 0.0 then
      Drained([], q, remainingAmount, remainingFee)
    else if q == [] then
      Drained([], [], remainingAmount, remainingFee)
    else
      var s := Take(q[0], remainingAmount, remainingFee);
      var next := if s.lot.currentAmount <= 0.0 then q[1..] else [s.lot] + q[1..];
      var d := Drain(next, s.remainingAmount, s.remainingFee);
      Drained(s.taken + d.records, d.rest, d.remainingAmount, d.remainingFee)
  }

  /** One round of the loop: the records of the front lot's take come first, then those of the rest of the drain. */
  lemma DrainStep(q: seq<Lot>, remainingAmount: real, remainingFee: real)
    requires NonNegative(q) && remainingAmount >= 0.0 && remainingFee >= 0.0
    requires remainingAmount + remainingFee > 0.0 && q != []
    ensures var s := Take(q[0], remainingAmount, remainingFee);
      var next := if s.lot.currentAmount <= 0.0 then q[1..] else [s.lot] + q[1..];
      && NonNegative(next) && s.remainingAmount >= 0.0 && s.remainingFee >= 0.0
      && var d := Drain(q, remainingAmount, remainingFee);
      var d' := Drain(next, s.remainingAmount, s.remainingFee);
      && d.records == s.taken + d'.records && d.rest == d'.rest
      && d.remainingAmount == d'.remainingAmount && d.remainingFee == d'.remainingFee
  {
  }

  lemma SumsOfConcat(a: seq<SpendRecord>, b: seq<SpendRecord>)
    requires |a| <= 1
    ensures SumAmountTaken(a + b) == SumAmountTaken(a) + SumAmountTaken(b)
    ensures SumFeeTaken(a + b) == SumFeeTaken(a) + SumFeeTaken(b)
    ensures Sources(a + b) == Sources(a) + Sources(b)
  {
    if a != [] {
      assert (a + b)[1..] == b;
      assert a[1..] == [];
    } else {
      assert a + b == b;
    }
  }

  /**
   * Conservation: the records' principal and fee plus what is still owed
   * are what was asked, and the queue's balance falls by exactly what was
   * drained.
   */
  lemma {:induction false} DrainConserves(q: seq<Lot>, remainingAmount: real, remainingFee: real)
    requires NonNegative(q) && remainingAmount >= 0.0 && remainingFee >= 0.0
    ensures var d := Drain(q, remainingAmount, remainingFee);
      && SumAmountTaken(d.records) + d.remainingAmount == remainingAmount
      && SumFeeTaken(d.records) + d.remainingFee == remainingFee
      && Total(d.rest) == Total(q) - ((remainingAmount + remainingFee) - (d.remainingAmount + d.remainingFee))
    decreases |q| + (if remainingAmount + remainingFee > 0.0 then 1 else 0)
  {
    if remainingAmount + remainingFee > 0.0 && q != [] {
      var s := Take(q[0], remainingAmount, remainingFee);
      var next := if s.lot.currentAmount <= 0.0 then q[1..] else [s.lot] + q[1..];
      DrainStep(q, remainingAmount, remainingFee);
      DrainConserves(next, s.remainingAmount, s.remainingFee);
      var d := Drain(next, s.remainingAmount, s.remainingFee);
      SumsOfConcat(s.taken, d.records);
      assert Total(q) == q[0].currentAmount + Total(q[1..]);
      if s.lot.currentAmount > 0.0 {
        assert next[1..] == q[1..];
      }
    }
  }

  /**
   * A queue holding at least what is asked is never exhausted with a
   * positive remainder: the loop's empty-queue `break` is unreachable.
   */
  lemma {:induction false} DrainCompletes(q: seq<Lot>, remainingAmount: real, remainingFee: real)
    requires NonNegative(q) && remainingAmount >= 0.0 && remainingFee >= 0.0
    requires Total(q) >= remainingAmount + remainingFee
    ensures Drain(q, remainingAmount, remainingFee).remainingAmount == 0.0
    ensures Drain(q, remainingAmount, remainingFee).remainingFee == 0.0
    decreases |q| + (if remainingAmount + remainingFee > 0.0 then 1 else 0)
  {
    if remainingAmount + remainingFee > 0.0 && q != [] {
      var s := Take(q[0], remainingAmount, remainingFee);
      var next := if s.lot.currentAmount <= 0.0 then q[1..] else [s.lot] + q[1..];
      assert Total(q) == q[0].currentAmount + Total(q[1..]);
      if s.lot.currentAmount > 0.0 {
        assert next[1..] == q[1..];
        TotalNonNegative(next);
      }
      DrainCompletes(next, s.remainingAmount, s.remainingFee);
    }
  }

  /**
   * The whole spend of `totalAmount` principal and `fee` fee from a queue
   * that holds enough: the records carry exactly the principal and exactly
   * the fee, and the queue's balance falls by their sum.
   */
  lemma SpendIsExact(q: seq<Lot>, totalAmount: real, fee: real)
    requires NonNegative(q) && totalAmount >= 0.0 && fee >= 0.0
    requires Total(q) >= totalAmount + fee
    ensures var d := Drain(q, totalAmount, fee);
      && SumAmountTaken(d.records) == totalAmount
      && SumFeeTaken(d.records) == fee
      && Total(d.rest) == Total(q) - (totalAmount + fee)
  {
    DrainConserves(q, totalAmount, fee);
    DrainCompletes(q, totalAmount, fee);
  }

  /** A request for nothing takes nothing and leaves the queue as it was. */
  lemma ZeroRequestIsNoOp(q: seq<Lot>)
    requires NonNegative(q)
    ensures Drain(q, 0.0, 0.0) == Drained([], q, 0.0, 0.0)
  {
  }

  /** The funds check, on the exact holdings of the queue. */
  predicate Sufficient(q: seq<Lot>, totalAmount: real, fee: real) {
    Total(q) >= totalAmount + fee
  }

  /** The funds check passes exactly when the spend loop drains all that is asked. */
  lemma SufficientIffCompletes(q: seq<Lot>, totalAmount: real, fee: real)
    requires NonNegative(q) && totalAmount >= 0.0 && fee >= 0.0
    ensures var d := Drain(q, totalAmount, fee);
      Sufficient(q, totalAmount, fee) <==> d.remainingAmount == 0.0 && d.remainingFee == 0.0
  {
    var d := Drain(q, totalAmount, fee);
    DrainConserves(q, totalAmount, fee);
    TotalNonNegative(d.rest);
    if Sufficient(q, totalAmount, fee) {
      DrainCompletes(q, totalAmount, fee);
    }
  }

  /** The funds check as `_spend_funds` writes it: on the holdings rounded to six places. */
  predicate SufficientAsWritten(q: seq<Lot>, totalAmount: real, fee: real) {
    Round6(Total(q)) >= totalAmount + fee
  }

  /**
   * The rounded check admits a request the queue cannot cover: holding
   * 0.0000006, a withdrawal of 0.000001 passes, and the spend records only
   * 0.0000006 of principal, leaving 0.0000004 unpaid.
   */
  lemma RoundedCheckAdmitsShortSpend(t: TxId)
    ensures var q := [Lot(t, 0.0000006, 0.0000006, "USDT")];
      var d := Drain(q, 0.000001, 0.0);
      && SufficientAsWritten(q, 0.000001, 0.0)
      && !Sufficient(q, 0.000001, 0.0)
      && SumAmountTaken(d.records) == 0.0000006
      && d.remainingAmount == 0.0000004
  {
    var q := [Lot(t, 0.0000006, 0.0000006, "USDT")];
    assert Total(q) == 0.0000006;
    assert (0.0000006 * Scale).Floor == 0;
    DrainConserves(q, 0.000001, 0.0);
    var s := Take(q[0], 0.000001, 0.0);
    TakeInRatio(q[0], 0.000001, 0.0);
    assert Fraction(0.0000006, 0.000001) == 0.6;
    assert Drain(q, 0.000001, 0.0) == Drained(s.taken, [], s.remainingAmount, s.remainingFee);
  }

  /**
   * The rounded check also refuses a request the queue covers: holding
   * 0.0000014, a withdrawal of 0.0000012 is refused because the holdings
   * round down to 0.000001.
   */
  lemma RoundedCheckRefusesCoveredSpend(t: TxId)
    ensures var q := [Lot(t, 0.0000014, 0.0000014, "USDT")];
      && !SufficientAsWritten(q, 0.0000012, 0.0)
      && Sufficient(q, 0.0000012, 0.0)
  {
    var q := [Lot(t, 0.0000014, 0.0000014, "USDT")];
    assert Total(q) == 0.0000014;
    assert (0.0000014 * Scale).Floor == 1;
  }

  /** Every record of `rs` splits its take as `totalAmount : fee`. */
  predicate InRatio(rs: seq<SpendRecord>, totalAmount: real, fee: real) {
    forall r | r in rs :: Proportion(r.amountTaken, r.feeTaken, totalAmount, fee)
  }

  /** One iteration keeps what is owed in the ratio `totalAmount : fee`, and its record is in that ratio. */
  lemma TakeKeepsRatio(lot: Lot, remainingAmount: real, remainingFee: real, totalAmount: real, fee: real)
    requires lot.currentAmount >= 0.0 && remainingAmount >= 0.0 && remainingFee >= 0.0
    requires remainingAmount + remainingFee > 0.0
    requires Proportion(remainingAmount, remainingFee, totalAmount, fee)
    ensures var s := Take(lot, remainingAmount, remainingFee);
      InRatio(s.taken, totalAmount, fee) && Proportion(s.remainingAmount, s.remainingFee, totalAmount, fee)
  {
    var f := Fraction(lot.currentAmount, remainingAmount + remainingFee);
    TakeInRatio(lot, remainingAmount, remainingFee);
    ProportionScaled(1.0 - f, remainingAmount, remainingFee, totalAmount, fee);
    ProportionScaled(f, remainingAmount, remainingFee, totalAmount, fee);
  }

  /**
   * Proportionality: while what is owed keeps the ratio `totalAmount : fee`,
   * every record splits its take in that ratio, and so does what is left.
   */
  lemma {:induction false} DrainProportional(q: seq<Lot>, remainingAmount: real, remainingFee: real,
                                             totalAmount: real, fee: real)
    requires NonNegative(q) && remainingAmount >= 0.0 && remainingFee >= 0.0
    requires Proportion(remainingAmount, remainingFee, totalAmount, fee)
    ensures var d := Drain(q, remainingAmount, remainingFee);
      InRatio(d.records, totalAmount, fee) && Proportion(d.remainingAmount, d.remainingFee, totalAmount, fee)
    decreases |q| + (if remainingAmount + remainingFee > 0.0 then 1 else 0)
  {
    if remainingAmount + remainingFee > 0.0 && q != [] {
      var s := Take(q[0], remainingAmount, remainingFee);
      var next := if s.lot.currentAmount <= 0.0 then q[1..] else [s.lot] + q[1..];
      TakeKeepsRatio(q[0], remainingAmount, remainingFee, totalAmount, fee);
      DrainProportional(next, s.remainingAmount, s.remainingFee, totalAmount, fee);
      var d := Drain(next, s.remainingAmount, s.remainingFee);
      assert Drain(q, remainingAmount, remainingFee) == Drained(s.taken + d.records, d.rest, d.remainingAmount, d.remainingFee);
      assert InRatio(s.taken + d.records, totalAmount, fee);
    }
  }

  /** Every record of a spend of `totalAmount` and `fee` splits its take in the ratio of the request. */
  lemma SpendIsProportional(q: seq<Lot>, totalAmount: real, fee: real)
    requires NonNegative(q) && totalAmount >= 0.0 && fee >= 0.0
    ensures InRatio(Drain(q, totalAmount, fee).records, totalAmount, fee)
  {
    DrainProportional(q, totalAmount, fee, totalAmount, fee);
  }

  /** `after` is `before` partly spent: same lot, smaller positive balance, original amount scaled alike. */
  predicate Shrunk(before: Lot, after: Lot) {
    && after.txId == before.txId && after.originalCurrency == before.originalCurrency
    && 0.0 < after.currentAmount < before.currentAmount
    && after.originalAmount * before.currentAmount == before.originalAmount * after.currentAmount
  }

  /**
   * The shape a FIFO spend leaves. With `k` the number of lots popped from
   * the front of `q`: either the rest is `q[k..]` untouched and the sources
   * are the popped lots that held something, each taken whole; or the lot at
   * `k` was partly spent and stays at the front, the lots behind it untouched,
   * and the last source is exactly what it lost.
   */
  predicate InFifoOrder(q: seq<Lot>, rest: seq<Lot>, sources: seq<Source>) {
    |rest| <= |q| &&
    var k := |q| - |rest|;
    || (rest == q[k..] && sources == Wholes(q[..k]))
    || (&& k < |q|
        && rest[1..] == q[k + 1..]
        && Shrunk(q[k], rest[0])
        && sources == Wholes(q[..k]) + [Part(q[k], rest[0])])
  }

  /** Popping the front lot (and its source, if it held something) keeps the FIFO shape. */
  lemma InOrderAfterPop(q: seq<Lot>, rest: seq<Lot>, sources: seq<Source>)
    requires q != [] && InFifoOrder(q[1..], rest, sources)
    ensures InFifoOrder(q, rest, (if q[0].currentAmount > 0.0 then [Whole(q[0])] else []) + sources)
  {
    var k := |q| - |rest|;
    var head := if q[0].currentAmount > 0.0 then [Whole(q[0])] else [];
    assert q[..k][0] == q[0];
    assert q[..k][1..] == q[1..][..k - 1];
    assert Wholes(q[..k]) == head + Wholes(q[1..][..k - 1]);
    assert q[1..][k - 1..] == q[k..];
    if k < |q| {
      assert q[1..][k - 1] == q[k];
      assert q[1..][k..] == q[k + 1..];
    }
  }

  /** A lot left holding something ends the loop with it partly spent at the front. */
  lemma DrainStays(q: seq<Lot>, remainingAmount: real, remainingFee: real)
    requires NonNegative(q) && remainingAmount >= 0.0 && remainingFee >= 0.0
    requires remainingAmount + remainingFee > 0.0 && q != []
    requires Take(q[0], remainingAmount, remainingFee).lot.currentAmount > 0.0
    ensures var d := Drain(q, remainingAmount, remainingFee);
      InFifoOrder(q, d.rest, Sources(d.records))
  {
    var s := Take(q[0], remainingAmount, remainingFee);
    var next := [s.lot] + q[1..];
    TakeLockstep(q[0], remainingAmount, remainingFee);
    assert Drain(next, s.remainingAmount, s.remainingFee) == Drained([], next, 0.0, 0.0);
    assert s.taken == [s.taken[0]];
    assert Sources(s.taken) == [Part(q[0], s.lot)];
    assert q[..0] == [];
    assert next[1..] == q[1..];
    assert Shrunk(q[0], s.lot);
  }

  /** A take that uses a lot up is sourced from the whole lot, if it held anything. */
  lemma TakeAllIsWhole(lot: Lot, remainingAmount: real, remainingFee: real)
    requires lot.currentAmount >= 0.0 && remainingAmount >= 0.0 && remainingFee >= 0.0
    requires remainingAmount + remainingFee > 0.0
    requires Take(lot, remainingAmount, remainingFee).lot.currentAmount <= 0.0
    ensures Sources(Take(lot, remainingAmount, remainingFee).taken)
         == if lot.currentAmount > 0.0 then [Whole(lot)] else []
  {
    var s := Take(lot, remainingAmount, remainingFee);
    if s.taken != [] {
      assert s.taken == [s.taken[0]];
    }
  }

  /** FIFO order and provenance: every spend leaves the shape `InFifoOrder` describes. */
  lemma {:induction false} DrainIsFifo(q: seq<Lot>, remainingAmount: real, remainingFee: real)
    requires NonNegative(q) && remainingAmount >= 0.0 && remainingFee >= 0.0
    ensures var d := Drain(q, remainingAmount, remainingFee);
      InFifoOrder(q, d.rest, Sources(d.records))
    decreases |q| + (if remainingAmount + remainingFee > 0.0 then 1 else 0)
  {
    if remainingAmount + remainingFee <= 0.0 || q == [] {
      assert q[..0] == [] && q[0..] == q;
    } else {
      var s := Take(q[0], remainingAmount, remainingFee);
      if s.lot.currentAmount <= 0.0 {
        var d' := Drain(q[1..], s.remainingAmount, s.remainingFee);
        DrainIsFifo(q[1..], s.remainingAmount, s.remainingFee);
        SumsOfConcat(s.taken, d'.records);
        TakeAllIsWhole(q[0], remainingAmount, remainingFee);
        InOrderAfterPop(q, d'.rest, Sources(d'.records));
      } else {
        DrainStays(q, remainingAmount, remainingFee);
      }
    }
  }

  /** Spending from a queue whose lots all trace back to `origin` yields records and leftovers from `origin`. */
  lemma {:induction false} DrainKeepsOrigin(q: seq<Lot>, remainingAmount: real, remainingFee: real, origin: Currency)
    requires NonNegative(q) && remainingAmount >= 0.0 && remainingFee >= 0.0
    requires OriginatesIn(q, origin)
    ensures var d := Drain(q, remainingAmount, remainingFee);
      (forall r | r in d.records :: r.originalCurrency == origin) && OriginatesIn(d.rest, origin)
    decreases |q| + (if remainingAmount + remainingFee > 0.0 then 1 else 0)
  {
    if remainingAmount + remainingFee > 0.0 && q != [] {
      var s := Take(q[0], remainingAmount, remainingFee);
      var next := if s.lot.currentAmount <= 0.0 then q[1..] else [s.lot] + q[1..];
      assert OriginatesIn(next, origin) by {
        forall i | 0 <= i < |next| ensures next[i].originalCurrency == origin {
          if s.lot.currentAmount > 0.0 && i > 0 {
            assert next[i] == q[i];
          }
        }
      }
      DrainKeepsOrigin(next, s.remainingAmount, s.remainingFee, origin);
    }
  }
}
