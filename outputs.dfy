/**
 * What the spend records become: the entries `withdraw` returns, and the
 * lots `convert` re-deposits in the target currency.
 */
module Outputs {
  import opened Rounding
  import opened Lots
  import opened Spend

  // ---------------------------------------------------------------------------
  // withdraw

  /** One reported entry: the principal taken and the original amount used, each rounded to six places. */
  function Withdrawn(r: SpendRecord): Withdrawal {
    Withdrawal(r.txId, Round6(r.amountTaken), Round6(r.originalUsed), r.originalCurrency)
  }

  /** The list `withdraw` returns for the spend records `rs`. */
  function Report(rs: seq<SpendRecord>): (ws: seq<Withdrawal>)
    ensures |ws| == |rs|
    // same order, same lot, amounts off by at most half a reported unit
    ensures forall i | 0 <= i < |rs| ::
      && ws[i].txId == rs[i].txId && ws[i].originalCurrency == rs[i].originalCurrency
      && SixPlaces(ws[i].amountWithdrawn) && SixPlaces(ws[i].originalAmount)
      && rs[i].amountTaken - HalfUnit <= ws[i].amountWithdrawn <= rs[i].amountTaken + HalfUnit
      && rs[i].originalUsed - HalfUnit <= ws[i].originalAmount <= rs[i].originalUsed + HalfUnit
  {
    if rs == [] then [] else [Withdrawn(rs[0])] + Report(rs[1..])
  }

  function SumWithdrawn(ws: seq<Withdrawal>): real {
    if ws == [] then 0.0 else ws[0].amountWithdrawn + SumWithdrawn(ws[1..])
  }

  /** The reported amounts add up to the principal taken, up to half a unit per entry. */
  lemma {:induction false} ReportNearTaken(rs: seq<SpendRecord>)
    ensures var total := SumWithdrawn(Report(rs));
      SumAmountTaken(rs) - |rs| as real * HalfUnit <= total <= SumAmountTaken(rs) + |rs| as real * HalfUnit
  {
    if rs != [] {
      ReportNearTaken(rs[1..]);
      assert Report(rs)[1..] == Report(rs[1..]);
    }
  }

  /** Extending the records by one extends the report by that record's entry. */
  lemma {:induction false} ReportSnoc(rs: seq<SpendRecord>, r: SpendRecord)
    ensures Report(rs + [r]) == Report(rs) + [Withdrawn(r)]
  {
    if rs == [] {
      assert rs + [r] == [r];
    } else {
      assert (rs + [r])[1..] == rs[1..] + [r];
      ReportSnoc(rs[1..], r);
    }
  }

  /** Entries of exact six-place amounts are reported unchanged. */
  lemma ReportKeepsSixPlaces(r: SpendRecord)
    requires SixPlaces(r.amountTaken) && SixPlaces(r.originalUsed)
    ensures Report([r]) == [Withdrawal(r.txId, r.amountTaken, r.originalUsed, r.originalCurrency)]
  {
    Round6Keeps(r.amountTaken);
    Round6Keeps(r.originalUsed);
  }

  // ---------------------------------------------------------------------------
  // convert

  /** The new lot for one record: its principal rescaled from `amountFrom` to `amountTo`, its provenance carried. */
  function ConvertedLot(r: SpendRecord, amountFrom: real, amountTo: real): (l: Lot)
    ensures l.txId == r.txId && l.originalAmount == r.originalUsed && l.originalCurrency == r.originalCurrency
    // the principal's share of `amountFrom` is the new lot's share of `amountTo`
    ensures amountFrom > 0.0 ==> l.currentAmount * amountFrom == r.amountTaken * amountTo
    ensures amountFrom <= 0.0 ==> l.currentAmount == 0.0
    ensures r.amountTaken >= 0.0 && amountTo >= 0.0 ==> l.currentAmount >= 0.0
  {
    var ratio := if amountFrom > 0.0 then r.amountTaken / amountFrom else 0.0;
    assert amountFrom > 0.0 ==> ratio * amountFrom == r.amountTaken;
    assert r.amountTaken >= 0.0 ==> ratio >= 0.0;
    ProductNonNegativeWhen(r.amountTaken >= 0.0 && amountTo >= 0.0, ratio, amountTo);
    Lot(r.txId, ratio * amountTo, r.originalUsed, r.originalCurrency)
  }

  lemma ProductNonNegativeWhen(c: bool, a: real, b: real)
    requires c ==> a >= 0.0 && b >= 0.0
    ensures c ==> a * b >= 0.0
  {
    if c {
      ProductNonNegative(a, b);
    }
  }

  /** The lot a record becomes, if it took any principal; a fee-only record becomes none. */
  function LotsFor(r: SpendRecord, amountFrom: real, amountTo: real): seq<Lot> {
    if r.amountTaken > 0.0 then [ConvertedLot(r, amountFrom, amountTo)] else []
  }

  /** The lots `convert` appends to the target queue: one per record with a positive principal, in order. */
  function Converted(rs: seq<SpendRecord>, amountFrom: real, amountTo: real): (ls: seq<Lot>)
    ensures |ls| <= |rs|
    ensures amountFrom >= 0.0 && amountTo >= 0.0 ==> NonNegative(ls)
  {
    if rs == [] then []
    else
      var rest := Converted(rs[1..], amountFrom, amountTo);
      var head := LotsFor(rs[0], amountFrom, amountTo);
      head + rest
  }

  /**
   * The new lots share out `amountTo` in proportion to the principal each
   * record took: their total is to `amountTo` as the principal taken is to
   * `amountFrom`.
   */
  lemma {:induction false} ConvertedTotal(rs: seq<SpendRecord>, amountFrom: real, amountTo: real)
    requires amountFrom > 0.0
    requires forall r | r in rs :: r.amountTaken >= 0.0
    ensures Proportion(Total(Converted(rs, amountFrom, amountTo)), SumAmountTaken(rs), amountTo, amountFrom)
  {
    if rs != [] {
      var rest := Converted(rs[1..], amountFrom, amountTo);
      ConvertedTotal(rs[1..], amountFrom, amountTo);
      var head := LotsFor(rs[0], amountFrom, amountTo);
      TotalAppend(head, rest);
      var x := Total(head);
      assert Proportion(x, rs[0].amountTaken, amountTo, amountFrom) by {
        if head == [] {
          assert rs[0].amountTaken == 0.0;
        }
      }
      ProportionAdd(x, rs[0].amountTaken, Total(rest), SumAmountTaken(rs[1..]), amountTo, amountFrom);
    }
  }

  /** When every record took principal, every record becomes its own lot, in order. */
  lemma {:induction false} ConvertedKeepsEveryRecord(rs: seq<SpendRecord>, amountFrom: real, amountTo: real)
    requires forall r | r in rs :: r.amountTaken > 0.0
    ensures var ls := Converted(rs, amountFrom, amountTo);
      |ls| == |rs| && forall i | 0 <= i < |rs| :: ls[i] == ConvertedLot(rs[i], amountFrom, amountTo)
  {
    if rs != [] {
      ConvertedKeepsEveryRecord(rs[1..], amountFrom, amountTo);
      var ls := Converted(rs, amountFrom, amountTo);
      assert ls[1..] == Converted(rs[1..], amountFrom, amountTo);
      forall i | 0 < i < |rs| ensures ls[i] == ConvertedLot(rs[i], amountFrom, amountTo) {
        assert ls[i] == ls[1..][i - 1];
      }
    }
  }

  /** Records that all trace back to `origin` become lots that do too. */
  lemma {:induction false} ConvertedKeepsOrigin(rs: seq<SpendRecord>, amountFrom: real, amountTo: real, origin: Currency)
    requires forall r | r in rs :: r.originalCurrency == origin
    ensures OriginatesIn(Converted(rs, amountFrom, amountTo), origin)
  {
    if rs != [] {
      ConvertedKeepsOrigin(rs[1..], amountFrom, amountTo, origin);
      var rest := Converted(rs[1..], amountFrom, amountTo);
      var ls := Converted(rs, amountFrom, amountTo);
      forall i | 0 <= i < |ls| ensures ls[i].originalCurrency == origin {
        if rs[0].amountTaken > 0.0 && i > 0 {
          assert ls[i] == rest[i - 1];
        }
      }
    }
  }

  /** Extending the records by one extends the new lots by that record's lot, if it took principal. */
  lemma {:induction false} ConvertedSnoc(rs: seq<SpendRecord>, r: SpendRecord, amountFrom: real, amountTo: real)
    ensures Converted(rs + [r], amountFrom, amountTo)
         == Converted(rs, amountFrom, amountTo) + LotsFor(r, amountFrom, amountTo)
  {
    var tail := LotsFor(r, amountFrom, amountTo);
    if rs == [] {
      assert rs + [r] == [r];
      assert Converted([r], amountFrom, amountTo) == tail + Converted([], amountFrom, amountTo);
    } else {
      var head := LotsFor(rs[0], amountFrom, amountTo);
      assert (rs + [r])[0] == rs[0];
      assert (rs + [r])[1..] == rs[1..] + [r];
      ConvertedSnoc(rs[1..], r, amountFrom, amountTo);
      var middle := Converted(rs[1..], amountFrom, amountTo);
      assert Converted(rs + [r], amountFrom, amountTo) == head + (middle + tail);
      assert head + (middle + tail) == (head + middle) + tail;
    }
  }

  /** With a positive principal requested, no spend record is fee only. */
  lemma SpendTakesPrincipalEachTime(q: seq<Lot>, amountFrom: real, fee: real)
    requires NonNegative(q) && amountFrom > 0.0 && fee >= 0.0
    ensures forall r | r in Drain(q, amountFrom, fee).records :: r.amountTaken > 0.0
  {
    SpendIsProportional(q, amountFrom, fee);
    forall r | r in Drain(q, amountFrom, fee).records
      ensures r.amountTaken > 0.0
    {
      PrincipalOfProportionalTake(r.amountTaken, r.feeTaken, amountFrom, fee);
    }
  }

  /** A non-zero take in the ratio of a request with positive principal has positive principal. */
  lemma PrincipalOfProportionalTake(amountTaken: real, feeTaken: real, totalAmount: real, fee: real)
    requires amountTaken >= 0.0 && feeTaken >= 0.0 && amountTaken + feeTaken > 0.0 && totalAmount > 0.0
    requires Proportion(amountTaken, feeTaken, totalAmount, fee)
    ensures amountTaken > 0.0
  {
  }

  /**
   * A conversion that the funds check lets through re-deposits exactly
   * `amountTo`, as one new lot per spend record, each carrying its
   * record's provenance; the fee is re-deposited nowhere.
   */
  lemma ConvertIsExact(q: seq<Lot>, amountFrom: real, fee: real, amountTo: real)
    requires NonNegative(q) && amountFrom > 0.0 && fee >= 0.0
    requires Sufficient(q, amountFrom, fee)
    ensures var rs := Drain(q, amountFrom, fee).records;
      var ls := Converted(rs, amountFrom, amountTo);
      && Total(ls) == amountTo
      && |ls| == |rs|
      && forall i | 0 <= i < |rs| :: ls[i] == ConvertedLot(rs[i], amountFrom, amountTo)
  {
    var rs := Drain(q, amountFrom, fee).records;
    SpendIsExact(q, amountFrom, fee);
    SpendTakesPrincipalEachTime(q, amountFrom, fee);
    ConvertedSumsToAmountTo(rs, amountFrom, amountTo);
    ConvertedKeepsEveryRecord(rs, amountFrom, amountTo);
  }

  /** Records that took no principal become no lots at all. */
  lemma {:induction false} ConvertedOfFeeOnly(rs: seq<SpendRecord>, amountFrom: real, amountTo: real)
    requires forall r | r in rs :: r.amountTaken <= 0.0
    ensures Converted(rs, amountFrom, amountTo) == []
  {
    if rs != [] {
      assert rs[0] in rs;
      forall r | r in rs[1..] ensures r.amountTaken <= 0.0 {
        assert r in rs;
      }
      ConvertedOfFeeOnly(rs[1..], amountFrom, amountTo);
    }
  }

  /**
   * Converting a zero amount appends nothing, whatever `amountTo` is: the
   * ratio is 0, every record is fee only, and the filter drops them all.
   */
  lemma ConvertFromZeroAppendsNothing(q: seq<Lot>, fee: real, amountTo: real)
    requires NonNegative(q) && fee >= 0.0
    ensures Converted(Drain(q, 0.0, fee).records, 0.0, amountTo) == []
  {
    var rs := Drain(q, 0.0, fee).records;
    if fee == 0.0 {
      ZeroRequestIsNoOp(q);
    } else {
      SpendIsProportional(q, 0.0, fee);
      forall r | r in rs ensures r.amountTaken <= 0.0 {
        assert Proportion(r.amountTaken, r.feeTaken, 0.0, fee);
        CancelPositive(r.amountTaken, 0.0, fee);
      }
    }
    ConvertedOfFeeOnly(rs, 0.0, amountTo);
  }

  /** Records whose principal adds up to `amountFrom` become lots that add up to `amountTo`. */
  lemma ConvertedSumsToAmountTo(rs: seq<SpendRecord>, amountFrom: real, amountTo: real)
    requires amountFrom > 0.0 && SumAmountTaken(rs) == amountFrom
    requires forall r | r in rs :: r.amountTaken >= 0.0
    ensures Total(Converted(rs, amountFrom, amountTo)) == amountTo
  {
    ConvertedTotal(rs, amountFrom, amountTo);
    var total := Total(Converted(rs, amountFrom, amountTo));
    assert Proportion(total, amountFrom, amountTo, amountFrom);
    CancelPositive(total, amountTo, amountFrom);
  }

  lemma CancelPositive(x: real, y: real, k: real)
    requires k > 0.0 && x * k == k * y
    ensures x == y
  {
    assert (x - y) * k == 0.0;
  }
}
