/**
 * Values of the FIFO lot ledger and the specification of its spend loop.
 *
 * A `Lot` is the value of one funding lot (a `Party` object) at one moment;
 * a queue of lots is the content of one currency's deque. `Take` is one
 * iteration of the spend loop on the front lot, `Drain` is the whole loop,
 * `Converted` is the list of lots `convert` re-deposits and `Report` is the
 * mapping `withdraw` applies to the spend records. The lemmas state what the
 * ledger promises of these: conservation, proportional fees, FIFO order and
 * provenance.
 */
module Lots {
  /** The identifier of the funding transaction; the ledger only compares it. */
  type TxId(==)

  type Currency = string

  /** One funding lot: what is left of it, and what is left of its original amount. */
  datatype Lot = Lot(txId: TxId, currentAmount: real, originalAmount: real, originalCurrency: Currency)

  /** One entry of the list the spend loop returns. */
  datatype SpendRecord = SpendRecord(
    txId: TxId,
    amountTaken: real,
    feeTaken: real,
    originalUsed: real,
    originalCurrency: Currency)

  /** One entry of the list `withdraw` returns. */
  datatype Withdrawal = Withdrawal(
    txId: TxId,
    amountWithdrawn: real,
    originalAmount: real,
    originalCurrency: Currency)

  /** One iteration of the spend loop: the front lot afterwards, the record it produced (if any), and what is still owed. */
  datatype Step = Step(lot: Lot, taken: seq<SpendRecord>, remainingAmount: real, remainingFee: real)

  /** The spend loop's result: its records, the queue it leaves, and what it could not cover. */
  datatype Drained = Drained(records: seq<SpendRecord>, rest: seq<Lot>, remainingAmount: real, remainingFee: real)

  /** What a record says about the lot it came from: who, how much value, how much original amount. */
  datatype Source = Source(txId: TxId, value: real, original: real, originalCurrency: Currency)

  // ---------------------------------------------------------------------------
  // Sums and shapes of queues and record lists

  /** The spendable balance of a queue. */
  function Total(q: seq<Lot>): real {
    if q == [] then 0.0 else q[0].currentAmount + Total(q[1..])
  }

  function SumAmountTaken(rs: seq<SpendRecord>): real {
    if rs == [] then 0.0 else rs[0].amountTaken + SumAmountTaken(rs[1..])
  }

  function SumFeeTaken(rs: seq<SpendRecord>): real {
    if rs == [] then 0.0 else rs[0].feeTaken + SumFeeTaken(rs[1..])
  }

  predicate NonNegative(q: seq<Lot>) {
    forall i | 0 <= i < |q| :: q[i].currentAmount >= 0.0
  }

  /** Every lot of `q` traces back to currency `origin`. */
  predicate OriginatesIn(q: seq<Lot>, origin: Currency) {
    forall i | 0 <= i < |q| :: q[i].originalCurrency == origin
  }

  function RecordSource(r: SpendRecord): Source {
    Source(r.txId, r.amountTaken + r.feeTaken, r.originalUsed, r.originalCurrency)
  }

  function Sources(rs: seq<SpendRecord>): seq<Source> {
    if rs == [] then [] else [RecordSource(rs[0])] + Sources(rs[1..])
  }

  /** The source a lot is when all of it is spent. */
  function Whole(l: Lot): Source {
    Source(l.txId, l.currentAmount, l.originalAmount, l.originalCurrency)
  }

  /** The sources of the lots of `q` that hold something, in queue order. */
  function Wholes(q: seq<Lot>): seq<Source> {
    if q == [] then []
    else (if q[0].currentAmount > 0.0 then [Whole(q[0])] else []) + Wholes(q[1..])
  }

  /** The source a lot is when it went from `before` to `after`. */
  function Part(before: Lot, after: Lot): Source {
    Source(before.txId, before.currentAmount - after.currentAmount,
           before.originalAmount - after.originalAmount, before.originalCurrency)
  }

  lemma {:induction false} TotalAppend(a: seq<Lot>, b: seq<Lot>)
    ensures Total(a + b) == Total(a) + Total(b)
  {
    if a == [] {
      assert a + b == b;
    } else {
      assert (a + b)[1..] == a[1..] + b;
      TotalAppend(a[1..], b);
    }
  }

  lemma {:induction false} TotalNonNegative(q: seq<Lot>)
    requires NonNegative(q)
    ensures Total(q) >= 0.0
  {
    if q != [] {
      TotalNonNegative(q[1..]);
    }
  }

  // ---------------------------------------------------------------------------
  // One iteration of the spend loop

  /**
   * The share of both remainders one iteration removes: all of them when the
   * front lot covers what is left, otherwise the lot's share of it.
   */
  function Fraction(available: real, remaining: real): (f: real)
    requires available >= 0.0 && remaining > 0.0
    ensures 0.0 <= f <= 1.0
    ensures f == 1.0 || f * remaining == available
    ensures (f == 1.0) == (remaining <= available)
  {
    if remaining <= available then 1.0 else available / remaining
  }

  /**
   * The loop body on the front lot `lot`, with `remainingAmount` principal and
   * `remainingFee` fee still to drain. Its proportions are stated by
   * `TakeInRatio` and `TakeLockstep`.
   */
  function Take(lot: Lot, remainingAmount: real, remainingFee: real): (s: Step)
    requires lot.currentAmount >= 0.0 && remainingAmount >= 0.0 && remainingFee >= 0.0
    requires remainingAmount + remainingFee > 0.0
    // identity is carried, the balance never grows or turns negative
    ensures s.lot.txId == lot.txId && s.lot.originalCurrency == lot.originalCurrency
    ensures 0.0 <= s.lot.currentAmount <= lot.currentAmount
    // either the lot is used up (and popped) or the request is covered
    ensures s.lot.currentAmount > 0.0 ==> s.remainingAmount == 0.0 && s.remainingFee == 0.0
    ensures s.remainingAmount >= 0.0 && s.remainingFee >= 0.0
    // what leaves the lot is what leaves the request
    ensures lot.currentAmount - s.lot.currentAmount
         == (remainingAmount + remainingFee) - (s.remainingAmount + s.remainingFee)
    // a record exactly when the lot held something; it is what the lot and the request lose
    ensures |s.taken| <= 1 && (s.taken != [] <==> lot.currentAmount > 0.0)
    ensures forall r | r in s.taken ::
      && r.txId == lot.txId && r.originalCurrency == lot.originalCurrency
      && r.amountTaken >= 0.0 && r.feeTaken >= 0.0
      && r.amountTaken + s.remainingAmount == remainingAmount
      && r.feeTaken + s.remainingFee == remainingFee
      && r.amountTaken + r.feeTaken == lot.currentAmount - s.lot.currentAmount > 0.0
      && r.originalUsed == lot.originalAmount - s.lot.originalAmount
    ensures s.taken == [] ==>
      s.lot.originalAmount == lot.originalAmount
      && s.remainingAmount == remainingAmount && s.remainingFee == remainingFee
    // a lot drained to zero hands over all of its original amount
    ensures s.taken != [] && s.lot.currentAmount == 0.0 ==> s.lot.originalAmount == 0.0
  {
    var available := lot.currentAmount;
    var covered := remainingAmount + remainingFee <= available;
    var toTake := if covered then remainingAmount + remainingFee else available;
    var amountTaken :=
      if toTake <= 0.0 then 0.0
      else if covered then remainingAmount
      else remainingAmount / (remainingAmount + remainingFee) * toTake;
    var feeTaken :=
      if toTake <= 0.0 then 0.0
      else if covered then remainingFee
      else toTake - amountTaken;
    var current := if covered then available - toTake else 0.0;
    var originalUsed :=
      if toTake <= 0.0 then 0.0
      else if available > 0.0 then lot.originalAmount * (toTake / available)
      else 0.0;
    var after := lot.(currentAmount := current, originalAmount := lot.originalAmount - originalUsed);
    var taken := if toTake > 0.0
      then [SpendRecord(lot.txId, amountTaken, feeTaken, originalUsed, lot.originalCurrency)]
      else [];
    TakeFacts(lot, remainingAmount, remainingFee, toTake, amountTaken, feeTaken, originalUsed);
    Step(after, taken,
         if covered then 0.0 else remainingAmount - amountTaken,
         if covered then 0.0 else remainingFee - feeTaken)
  }

  /** `a` is to `b` as `c` is to `d`, written without division. */
  predicate Proportion(a: real, b: real, c: real, d: real) {
    a * d == b * c
  }

  /** Scaling both terms of a ratio keeps it. */
  lemma ProportionScaled(k: real, a: real, b: real, c: real, d: real)
    requires Proportion(a, b, c, d)
    ensures Proportion(k * a, k * b, c, d)
  {
    calc {
      (k * a) * d;
      k * (a * d);
      k * (b * c);
      (k * b) * c;
    }
  }

  /** Adding termwise two pairs in the same ratio keeps it. */
  lemma ProportionAdd(a: real, b: real, a': real, b': real, c: real, d: real)
    requires Proportion(a, b, c, d) && Proportion(a', b', c, d)
    ensures Proportion(a + a', b + b', c, d)
  {
  }

  lemma ProductNonNegative(a: real, b: real)
    requires a >= 0.0 && b >= 0.0
    ensures a * b >= 0.0
  {
  }

  /** The arithmetic behind `Take`: the take is the same fraction of principal and of fee. */
  lemma TakeFacts(lot: Lot, remainingAmount: real, remainingFee: real,
                  toTake: real, amountTaken: real, feeTaken: real, originalUsed: real)
    requires lot.currentAmount >= 0.0 && remainingAmount >= 0.0 && remainingFee >= 0.0
    requires remainingAmount + remainingFee > 0.0
    requires toTake == if remainingAmount + remainingFee <= lot.currentAmount
                       then remainingAmount + remainingFee else lot.currentAmount
    requires amountTaken ==
      if toTake <= 0.0 then 0.0
      else if remainingAmount + remainingFee <= lot.currentAmount then remainingAmount
      else remainingAmount / (remainingAmount + remainingFee) * toTake
    requires feeTaken ==
      if toTake <= 0.0 then 0.0
      else if remainingAmount + remainingFee <= lot.currentAmount then remainingFee
      else toTake - amountTaken
    requires originalUsed ==
      if toTake <= 0.0 then 0.0
      else if lot.currentAmount > 0.0 then lot.originalAmount * (toTake / lot.currentAmount)
      else 0.0
    ensures var f := Fraction(lot.currentAmount, remainingAmount + remainingFee);
      && amountTaken == f * remainingAmount && feeTaken == f * remainingFee
      && amountTaken <= remainingAmount && feeTaken <= remainingFee
      && amountTaken >= 0.0 && feeTaken >= 0.0
    ensures (lot.originalAmount - originalUsed) * lot.currentAmount
         == lot.originalAmount * (if remainingAmount + remainingFee <= lot.currentAmount
                                  then lot.currentAmount - toTake else 0.0)
    ensures toTake == lot.currentAmount > 0.0 ==> originalUsed == lot.originalAmount
  {
    var remaining := remainingAmount + remainingFee;
    var f := Fraction(lot.currentAmount, remaining);
    if remaining > lot.currentAmount && toTake > 0.0 {
      assert f == lot.currentAmount / remaining;
      assert amountTaken == f * remainingAmount;
      assert feeTaken == f * remaining - f * remainingAmount;
    }
    ProductNonNegative(1.0 - f, remainingAmount);
    ProductNonNegative(1.0 - f, remainingFee);
    ProductNonNegative(f, remainingAmount);
    ProductNonNegative(f, remainingFee);
    if toTake > 0.0 && lot.currentAmount > 0.0 {
      calc {
        (lot.originalAmount - originalUsed) * lot.currentAmount;
        lot.originalAmount * lot.currentAmount - lot.originalAmount * (toTake / lot.currentAmount) * lot.currentAmount;
        lot.originalAmount * lot.currentAmount - lot.originalAmount * toTake;
      }
    }
  }

  /**
   * Proportional fees: one iteration takes the same fraction of the principal
   * still owed and of the fee still owed, and leaves the rest of both.
   */
  lemma TakeInRatio(lot: Lot, remainingAmount: real, remainingFee: real)
    requires lot.currentAmount >= 0.0 && remainingAmount >= 0.0 && remainingFee >= 0.0
    requires remainingAmount + remainingFee > 0.0
    ensures var s := Take(lot, remainingAmount, remainingFee);
      var f := Fraction(lot.currentAmount, remainingAmount + remainingFee);
      && s.remainingAmount == (1.0 - f) * remainingAmount
      && s.remainingFee == (1.0 - f) * remainingFee
      && forall r | r in s.taken :: r.amountTaken == f * remainingAmount && r.feeTaken == f * remainingFee
  {
    var available := lot.currentAmount;
    var covered := remainingAmount + remainingFee <= available;
    var toTake := if covered then remainingAmount + remainingFee else available;
    var amountTaken :=
      if toTake <= 0.0 then 0.0
      else if covered then remainingAmount
      else remainingAmount / (remainingAmount + remainingFee) * toTake;
    var feeTaken :=
      if toTake <= 0.0 then 0.0
      else if covered then remainingFee
      else toTake - amountTaken;
    var originalUsed :=
      if toTake <= 0.0 then 0.0
      else if available > 0.0 then lot.originalAmount * (toTake / available)
      else 0.0;
    TakeFacts(lot, remainingAmount, remainingFee, toTake, amountTaken, feeTaken, originalUsed);
  }

  /**
   * Provenance: the original amount attributed to a take is the lot's
   * original amount scaled by the share of the balance taken, so the
   * original amount and the balance fall in lockstep.
   */
  lemma TakeLockstep(lot: Lot, remainingAmount: real, remainingFee: real)
    requires lot.currentAmount >= 0.0 && remainingAmount >= 0.0 && remainingFee >= 0.0
    requires remainingAmount + remainingFee > 0.0
    ensures var s := Take(lot, remainingAmount, remainingFee);
      && s.lot.originalAmount * lot.currentAmount == lot.originalAmount * s.lot.currentAmount
      && forall r | r in s.taken ::
           r.originalUsed * lot.currentAmount == lot.originalAmount * (r.amountTaken + r.feeTaken)
  {
    var available := lot.currentAmount;
    var covered := remainingAmount + remainingFee <= available;
    var toTake := if covered then remainingAmount + remainingFee else available;
    var amountTaken :=
      if toTake <= 0.0 then 0.0
      else if covered then remainingAmount
      else remainingAmount / (remainingAmount + remainingFee) * toTake;
    var feeTaken :=
      if toTake <= 0.0 then 0.0
      else if covered then remainingFee
      else toTake - amountTaken;
    var originalUsed :=
      if toTake <= 0.0 then 0.0
      else if available > 0.0 then lot.originalAmount * (toTake / available)
      else 0.0;
    TakeFacts(lot, remainingAmount, remainingFee, toTake, amountTaken, feeTaken, originalUsed);
    var s := Take(lot, remainingAmount, remainingFee);
    forall r | r in s.taken
      ensures r.originalUsed * lot.currentAmount == lot.originalAmount * (r.amountTaken + r.feeTaken)
    {
      calc {
        r.originalUsed * lot.currentAmount;
        (lot.originalAmount - s.lot.originalAmount) * lot.currentAmount;
        lot.originalAmount * lot.currentAmount - s.lot.originalAmount * lot.currentAmount;
        lot.originalAmount * lot.currentAmount - lot.originalAmount * s.lot.currentAmount;
        lot.originalAmount * (lot.currentAmount - s.lot.currentAmount);
      }
    }
  }
}
