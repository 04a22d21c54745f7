/** The settlement arithmetic for an existing customer (components/Dashboard.tsx,
    handleTransaction). Amounts are exact reals; points are integers. */
module Pricing {
  import opened Types

  /** `Math.min` of three amounts. */
  function Min3(a: real, b: real, c: real): (m: real)
    ensures m <= a && m <= b && m <= c
    ensures m == a || m == b || m == c
  {
    MinReal(a, MinReal(b, c))
  }

  /** What a purchase costs once the tier discount and point redemption are taken off. */
  datatype Quote = Quote(tierDiscount: real, billAfterTierDiscount: real, redemption: real, finalBill: real, totalDiscount: real)

  /** The quote for a bill, given the customer's balance, the effective tier's discount
      percent and the points the cashier asks to redeem. The tier discount is granted
      only when a positive number of points is requested, whether or not any is
      redeemed; redemption is capped by the balance, the
      request and what is still owed, so the final bill is never negative and the
      final bill plus the discount is the original bill. */
  function QuoteFor(balance: int, percent: int, billAmount: real, pointsToRedeem: real): (q: Quote)
    ensures pointsToRedeem > 0.0 ==> q.tierDiscount == billAmount * percent as real / 100.0
    ensures pointsToRedeem <= 0.0 ==> q.tierDiscount == 0.0
    ensures q.billAfterTierDiscount == billAmount - q.tierDiscount
    ensures q.redemption <= balance as real && q.redemption <= pointsToRedeem && q.redemption <= q.billAfterTierDiscount
    ensures q.redemption == balance as real || q.redemption == pointsToRedeem || q.redemption == q.billAfterTierDiscount
    ensures q.finalBill >= 0.0
    ensures q.finalBill + q.totalDiscount == billAmount
    ensures q.totalDiscount == q.tierDiscount + q.redemption
  {
    var tierDiscount := if pointsToRedeem > 0.0 then (billAmount * percent as real) / 100.0 else 0.0;
    var billAfter := billAmount - tierDiscount;
    var redemption := Min3(balance as real, pointsToRedeem, billAfter);
    Quote(tierDiscount, billAfter, redemption, billAmount - tierDiscount - redemption, tierDiscount + redemption)
  }

  /** Without a redemption request nothing is taken off a non-negative bill. */
  lemma NoRedemptionChargesFullBill(balance: int, percent: int, billAmount: real)
    requires balance >= 0 && billAmount >= 0.0
    ensures QuoteFor(balance, percent, billAmount, 0.0).redemption == 0.0
    ensures QuoteFor(balance, percent, billAmount, 0.0).finalBill == billAmount
  {
  }

  /** The signed point change of an accepted purchase: what was tendered above the
      final bill, less the points redeemed, rounded down. */
  function NetPointsChange(amountGiven: real, q: Quote): (n: int)
    ensures n as real <= amountGiven - q.finalBill - q.redemption < n as real + 1.0
  {
    (amountGiven - q.finalBill - q.redemption).Floor
  }

  /** A non-negative integer balance stays non-negative after an accepted purchase:
      the redemption never exceeds the balance and the change is never negative. */
  lemma BalanceStaysNonNegative(balance: int, percent: int, billAmount: real, pointsToRedeem: real, amountGiven: real)
    requires balance >= 0
    requires amountGiven >= QuoteFor(balance, percent, billAmount, pointsToRedeem).finalBill
    ensures balance + NetPointsChange(amountGiven, QuoteFor(balance, percent, billAmount, pointsToRedeem)) >= 0
  {
    var q := QuoteFor(balance, percent, billAmount, pointsToRedeem);
    var n := NetPointsChange(amountGiven, q);
    assert amountGiven - q.finalBill - q.redemption >= - balance as real;
    assert n as real + 1.0 > - balance as real;
  }

  /** Worked value: Platinum (15%), balance 7500, bill 25000, all 7500 points requested,
      14000 tendered: 3750 off for the tier, 7500 redeemed, 13750 charged, net -7250. */
  lemma PlatinumExample()
    ensures QuoteFor(7500, 15, 25000.0, 7500.0).tierDiscount == 3750.0
    ensures QuoteFor(7500, 15, 25000.0, 7500.0).redemption == 7500.0
    ensures QuoteFor(7500, 15, 25000.0, 7500.0).finalBill == 13750.0
    ensures NetPointsChange(14000.0, QuoteFor(7500, 15, 25000.0, 7500.0)) == -7250
  {
  }
}
