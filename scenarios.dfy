/**
 * The ledger's worked examples, replayed on the value-level model: two
 * deposits of 110 USDT with a fee of 10 each, then withdrawals and a
 * conversion drawn from them, with the amounts and balances they produce.
 */
module Scenarios {
  import opened Rounding
  import opened Lots
  import opened Spend
  import opened Outputs
  import opened Ledgers

  /** The two lots the deposits leave: 100 spendable of 110 deposited, each. */
  function TwoDeposits(t1: TxId, t2: TxId): seq<Lot> {
    [DepositedLot(110.0, "USDT", t1, 10.0), DepositedLot(110.0, "USDT", t2, 10.0)]
  }

  /** Each deposit nets its fee off, and the balance reports 100, then 200. */
  lemma DepositThenBalance(t1: TxId, t2: TxId)
    ensures TwoDeposits(t1, t2) == [Lot(t1, 100.0, 110.0, "USDT"), Lot(t2, 100.0, 110.0, "USDT")]
    ensures Round6(Total(TwoDeposits(t1, t2)[..1])) == 100.0
    ensures Round6(Total(TwoDeposits(t1, t2))) == 200.0
  {
    var q := TwoDeposits(t1, t2);
    assert q[..1] == [q[0]] && q[1..] == [q[1]];
    assert Total([q[1]]) == 100.0;
    assert Total(q) == 200.0;
    Round6Keeps(100.0);
    Round6Keeps(200.0);
  }

  /**
   * Withdrawing 150 with a fee of 10 uses up the first lot, the fee shared
   * out 150:10, and takes the rest from the second, which keeps 40 of its
   * balance and 44 of its original amount.
   */
  lemma WithdrawFifoAndFee(t1: TxId, t2: TxId)
    ensures var d := Drain(TwoDeposits(t1, t2), 150.0, 10.0);
      && Report(d.records) == [Withdrawal(t1, 93.75, 110.0, "USDT"), Withdrawal(t2, 56.25, 66.0, "USDT")]
      && d.rest == [Lot(t2, 40.0, 44.0, "USDT")]
      && Round6(Total(d.rest)) == 40.0
  {
    DepositThenBalance(t1, t2);
    FirstWithdrawalRecords(t1, t2);
    var first := FirstWithdrawal(t1, t2);
    ReportKeepsSixPlaces(first[0]);
    ReportKeepsSixPlaces(first[1]);
    assert first == [first[0]] + [first[1]];
    assert Report(first) == Report([first[0]]) + Report([first[1]]);
    Round6Keeps(40.0);
  }

  /** A second withdrawal of 30 with a fee of 10 then takes all that is left of the second lot. */
  lemma WithdrawTheRest(t2: TxId)
    ensures var d := Drain([Lot(t2, 40.0, 44.0, "USDT")], 30.0, 10.0);
      && Report(d.records) == [Withdrawal(t2, 30.0, 44.0, "USDT")]
      && d.rest == []
  {
    var l := Lot(t2, 40.0, 44.0, "USDT");
    var s := Take(l, 30.0, 10.0);
    assert s.taken == [SpendRecord(t2, 30.0, 10.0, 44.0, "USDT")];
    assert s.lot.currentAmount == 0.0;
    assert Drain([], 0.0, 0.0) == Drained([], [], 0.0, 0.0);
    ReportKeepsSixPlaces(s.taken[0]);
  }

  /** The records of the first withdrawal, worked out one lot at a time. */
  lemma FirstWithdrawalRecords(t1: TxId, t2: TxId)
    ensures var d := Drain([Lot(t1, 100.0, 110.0, "USDT"), Lot(t2, 100.0, 110.0, "USDT")], 150.0, 10.0);
      && d.records == [SpendRecord(t1, 93.75, 6.25, 110.0, "USDT"), SpendRecord(t2, 56.25, 3.75, 66.0, "USDT")]
      && d.rest == [Lot(t2, 40.0, 44.0, "USDT")]
  {
    var a := Lot(t1, 100.0, 110.0, "USDT");
    var b := Lot(t2, 100.0, 110.0, "USDT");
    var q := [a, b];
    var s1 := Take(a, 150.0, 10.0);
    assert 150.0 / 160.0 * 100.0 == 93.75;
    assert s1.taken == [SpendRecord(t1, 93.75, 6.25, 110.0, "USDT")];
    assert s1.lot.currentAmount == 0.0 && s1.remainingAmount == 56.25 && s1.remainingFee == 3.75;
    assert q[1..] == [b];
    var s2 := Take(b, 56.25, 3.75);
    assert 110.0 * (60.0 / 100.0) == 66.0;
    assert s2.taken == [SpendRecord(t2, 56.25, 3.75, 66.0, "USDT")];
    assert s2.lot == Lot(t2, 40.0, 44.0, "USDT") && s2.remainingAmount == 0.0 && s2.remainingFee == 0.0;
    assert [s2.lot] + [b][1..] == [s2.lot];
    assert Drain([s2.lot], 0.0, 0.0) == Drained([], [s2.lot], 0.0, 0.0);
  }

  function FirstWithdrawal(t1: TxId, t2: TxId): seq<SpendRecord> {
    [SpendRecord(t1, 93.75, 6.25, 110.0, "USDT"), SpendRecord(t2, 56.25, 3.75, 66.0, "USDT")]
  }

  /**
   * Converting 150 USDT with a fee of 10 into 300 ABC re-deposits the two
   * records' principal, 93.75 and 56.25, as 187.5 and 112.5 ABC; USDT keeps
   * 40, and withdrawing 200 ABC with a fee of 20 leaves 80 ABC.
   */
  lemma ConvertThenWithdraw(t1: TxId, t2: TxId)
    ensures var d := Drain(TwoDeposits(t1, t2), 150.0, 10.0);
      var abc := Converted(d.records, 150.0, 300.0);
      && abc == [Lot(t1, 187.5, 110.0, "USDT"), Lot(t2, 112.5, 66.0, "USDT")]
      && Round6(Total(d.rest)) == 40.0
      && Round6(Total(abc)) == 300.0
      && Round6(Total(Drain(abc, 200.0, 20.0).rest)) == 80.0
  {
    WithdrawFifoAndFee(t1, t2);
    FirstWithdrawalRecords(t1, t2);
    ConvertFirstWithdrawal(t1, t2);
    WithdrawFromConverted(t1, t2);
  }

  /** The new ABC lots: each record's principal over 150, times 300. */
  lemma ConvertFirstWithdrawal(t1: TxId, t2: TxId)
    ensures Converted(FirstWithdrawal(t1, t2), 150.0, 300.0)
         == [Lot(t1, 187.5, 110.0, "USDT"), Lot(t2, 112.5, 66.0, "USDT")]
  {
    var rs := FirstWithdrawal(t1, t2);
    assert ConvertedLot(rs[0], 150.0, 300.0) == Lot(t1, 187.5, 110.0, "USDT");
    assert ConvertedLot(rs[1], 150.0, 300.0) == Lot(t2, 112.5, 66.0, "USDT");
    ConvertedKeepsEveryRecord(rs, 150.0, 300.0);
  }

  /** The ABC holdings, 300, and what a withdrawal of 200 with a fee of 20 leaves of them. */
  lemma WithdrawFromConverted(t1: TxId, t2: TxId)
    ensures var abc := [Lot(t1, 187.5, 110.0, "USDT"), Lot(t2, 112.5, 66.0, "USDT")];
      && Round6(Total(abc)) == 300.0
      && Round6(Total(Drain(abc, 200.0, 20.0).rest)) == 80.0
  {
    var abc := [Lot(t1, 187.5, 110.0, "USDT"), Lot(t2, 112.5, 66.0, "USDT")];
    assert abc[1..] == [abc[1]];
    assert Total([abc[1]]) == 112.5;
    assert Total(abc) == 300.0;
    SpendIsExact(abc, 200.0, 20.0);
    Round6Keeps(300.0);
    Round6Keeps(80.0);
  }

  /** A withdrawal beyond the holdings is refused: 45 USDT cannot cover 100 with a fee of 1. */
  lemma WithdrawBeyondHoldings(t: TxId)
    ensures DepositedLot(50.0, "USDT", t, 5.0) == Lot(t, 45.0, 50.0, "USDT")
    ensures !Sufficient([DepositedLot(50.0, "USDT", t, 5.0)], 100.0, 1.0)
  {
    assert Total([DepositedLot(50.0, "USDT", t, 5.0)]) == 45.0;
  }

  /** A deposit whose fee exceeds it, or a negative one, adds a lot holding nothing. */
  lemma DepositBelowFee(t: TxId)
    ensures DepositedLot(10.0, "USDT", t, 15.0) == Lot(t, 0.0, 10.0, "USDT")
    ensures DepositedLot(-10.0, "USDT", t, 1.0) == Lot(t, 0.0, -10.0, "USDT")
  {
  }
}
