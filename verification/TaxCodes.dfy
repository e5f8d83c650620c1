/** The rate of a tax code, which commissions read as a percentage and payment vouchers as a fraction. */
module TaxCodes {
  import opened Money
  import opened Ledger

  datatype TaxCode = TaxCode(isWithholding: bool, isActive: bool, rate: real, authority: AccountId)

  /** What commission calculation withholds. */
  function PercentOf(x: real, rate: real): real {
    x * (rate / 100.0)
  }

  /** What a payment voucher deducts. */
  function FractionOf(x: real, rate: real): real {
    x * rate
  }

  lemma PercentIsHundredth(x: real, rate: real)
    ensures PercentOf(x, rate) == FractionOf(x, rate) / 100.0
  {
  }

  lemma HundredthStores(y: real)
    requires y >= 0.0
    ensures Store(y / 100.0) == Store(y) <==> y < 0.5
  {
    var n := Store(y);
    assert n as real <= y + 0.5;
    if y >= 0.5 {
      assert n >= 1 && y < n as real + 0.5;
      assert y / 100.0 + 0.5 < n as real;
    }
  }

  /** The two readings of one rate withhold the same amount exactly when even the larger one is less than half a cent.
      */
  lemma ReadingsAgreeExactly(x: real, rate: real)
    ensures Store(PercentOf(x, rate)) == Store(FractionOf(x, rate)) <==> Abs(FractionOf(x, rate)) < 0.5
  {
    var y := FractionOf(x, rate);
    PercentIsHundredth(x, rate);
    if y >= 0.0 {
      HundredthStores(y);
    } else {
      HundredthStores(-y);
      StoreOdd(y);
      StoreOdd(y / 100.0);
      assert -(y / 100.0) == -y / 100.0;
    }
  }

  /** At a rate of 5, 1000.00 bears 50.00 as a commission and 5000.00 on a voucher. */
  lemma FiveIsReadTwice()
    ensures Store(PercentOf(100_000.0, 5.0)) == 5_000 && Store(FractionOf(100_000.0, 5.0)) == 500_000
  {
    assert 100_000.0 * (5.0 / 100.0) == 5_000.0 && 100_000.0 * 5.0 == 500_000.0;
    StoreWhole(5_000);
    StoreWhole(500_000);
  }
}
