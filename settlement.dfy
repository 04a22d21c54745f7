/** The settlement of one sale against the customer list (components/Dashboard.tsx,
    handleTransaction): a new mobile number creates a customer, a known one is
    charged with tier discount and point redemption; either way the whole list is
    replaced at once, or the sale is rejected and nothing changes. */
module Settlement {
  import opened Types
  import opened Tiers
  import opened Pricing

  /** The amounts the cashier's form passes in. */
  datatype Details = Details(billAmount: real, amountGiven: real, pointsToRedeem: real)

  /** A rejected sale changes nothing; an accepted one yields the new list and the SMS to log. */
  datatype Outcome = Rejected | Accepted(customers: seq<Customer>, notice: SmsLog)

  /** `findIndex` by mobile number: the first customer with that number, or -1. */
  function FindIndex(cs: seq<Customer>, mobile: string): (i: int)
    ensures -1 <= i < |cs|
    ensures i == -1 <==> forall j :: 0 <= j < |cs| ==> cs[j].mobile != mobile
    ensures i >= 0 ==> cs[i].mobile == mobile && forall j :: 0 <= j < i ==> cs[j].mobile != mobile
  {
    if |cs| == 0 then -1
    else if cs[0].mobile == mobile then 0
    else
      var k := FindIndex(cs[1..], mobile);
      if k == -1 then -1 else k + 1
  }

  /** The discount percent of the customer's effective tier. */
  function CustomerPercent(c: Customer, settings: Settings): int {
    DiscountPercent(settings.discounts, EffectiveTier(c.spendingTier, c.pointsTier))
  }

  /** The quote for an existing customer. */
  function CustomerQuote(c: Customer, settings: Settings, d: Details): Quote {
    QuoteFor(c.points, CustomerPercent(c, settings), d.billAmount, d.pointsToRedeem)
  }

  /** The record created for a first purchase: the change above the bill, rounded
      down, becomes the opening balance. */
  function NewCustomer(mobile: string, name: string, pin: string, settings: Settings, d: Details, now: int): Customer {
    var points := (d.amountGiven - d.billAmount).Floor;
    Customer(mobile, name, pin, points, d.billAmount,
      [HistoryEntry(now, d.billAmount, points, Earn, 0.0)],
      CalculateTier(d.billAmount, settings.spendingTiers),
      CalculateTier(points as real, settings.pointsTiers))
  }

  /** The record after an accepted repeat purchase. */
  function Charged(c: Customer, settings: Settings, d: Details, now: int): Customer {
    var q := CustomerQuote(c, settings, d);
    var net := NetPointsChange(d.amountGiven, q);
    var entry := HistoryEntry(now, q.finalBill, net, if net >= 0 then Earn else Redeem, q.totalDiscount);
    var points := c.points + net;
    var spent := c.totalSpent + q.finalBill;
    c.(points := points, totalSpent := spent, history := c.history + [entry],
       spendingTier := CalculateTier(spent, settings.spendingTiers),
       pointsTier := CalculateTier(points as real, settings.pointsTiers))
  }

  /** One settlement. A new customer is rejected when the tender is below the bill; an
      existing one when it is below the final bill. On acceptance exactly one history
      entry is added, to the customer concerned, whose tiers are recomputed from the new
      totals, and every other customer keeps its place and contents. */
  function Settle(cs: seq<Customer>, settings: Settings, mobile: string, name: string, pin: string, d: Details, now: int): (o: Outcome)
    // rejection, both branches
    ensures o.Rejected? <==>
      (FindIndex(cs, mobile) == -1 && d.amountGiven < d.billAmount) ||
      (FindIndex(cs, mobile) >= 0 && d.amountGiven < CustomerQuote(cs[FindIndex(cs, mobile)], settings, d).finalBill)
    // a new customer is appended at the end
    ensures o.Accepted? && FindIndex(cs, mobile) == -1 ==>
      && |o.customers| == |cs| + 1 && o.customers[..|cs|] == cs
      && var c := o.customers[|cs|];
      && c.mobile == mobile && c.name == name && c.pin == pin
      && c.points == (d.amountGiven - d.billAmount).Floor && c.points >= 0
      && c.totalSpent == d.billAmount
      && c.history == [HistoryEntry(now, d.billAmount, c.points, Earn, 0.0)]
      && c.spendingTier == CalculateTier(c.totalSpent, settings.spendingTiers)
      && c.pointsTier == CalculateTier(c.points as real, settings.pointsTiers)
      && o.notice == SmsLog(now, name, mobile, Welcome(name, c.points), Sent)
    // an existing customer is updated in place
    ensures o.Accepted? && FindIndex(cs, mobile) >= 0 ==>
      && var i := FindIndex(cs, mobile);
      && var old_c := cs[i];
      && var q := CustomerQuote(old_c, settings, d);
      && |o.customers| == |cs|
      && (forall j :: 0 <= j < |cs| && j != i ==> o.customers[j] == cs[j])
      && var c := o.customers[i];
      && c.mobile == old_c.mobile && c.name == old_c.name && c.pin == old_c.pin
      && |c.history| == |old_c.history| + 1 && c.history[..|old_c.history|] == old_c.history
      && var e := c.history[|old_c.history|];
      && e.date == now && e.bill == q.finalBill && e.bill + e.discountApplied == d.billAmount
      && e.points == NetPointsChange(d.amountGiven, q)
      && (e.kind == Earn <==> e.points >= 0)
      && c.points == old_c.points + e.points
      && c.totalSpent == old_c.totalSpent + e.bill
      && c.spendingTier == CalculateTier(c.totalSpent, settings.spendingTiers)
      && c.pointsTier == CalculateTier(c.points as real, settings.pointsTiers)
      && o.notice == SmsLog(now, old_c.name, mobile, Receipt(old_c.name, e.bill, c.points), Sent)
  {
    var i := FindIndex(cs, mobile);
    if i == -1 then
      if d.amountGiven - d.billAmount < 0.0 then Rejected
      else
        var c := NewCustomer(mobile, name, pin, settings, d, now);
        assert (cs + [c])[..|cs|] == cs;
        Accepted(cs + [c], SmsLog(now, name, mobile, Welcome(name, c.points), Sent))
    else
      var q := CustomerQuote(cs[i], settings, d);
      if d.amountGiven < q.finalBill then Rejected
      else
        var c := Charged(cs[i], settings, d, now);
        assert c.history[..|cs[i].history|] == cs[i].history;
        Accepted(cs[i := c], SmsLog(now, c.name, c.mobile, Receipt(c.name, q.finalBill, c.points), Sent))
  }

  /** At most one record per mobile number. */
  ghost predicate UniqueMobiles(cs: seq<Customer>) {
    forall j, k :: 0 <= j < k < |cs| ==> cs[j].mobile != cs[k].mobile
  }

  /** The ledger invariant settlement keeps: unique mobile numbers and non-negative balances. */
  ghost predicate WellFormed(cs: seq<Customer>) {
    UniqueMobiles(cs) && forall j :: 0 <= j < |cs| ==> cs[j].points >= 0
  }

  /** An accepted settlement keeps mobile numbers unique and balances non-negative. */
  lemma SettlePreservesWellFormed(cs: seq<Customer>, settings: Settings, mobile: string, name: string, pin: string, d: Details, now: int)
    requires WellFormed(cs)
    ensures Settle(cs, settings, mobile, name, pin, d, now).Accepted? ==>
      WellFormed(Settle(cs, settings, mobile, name, pin, d, now).customers)
  {
    if Settle(cs, settings, mobile, name, pin, d, now).Accepted? {
      if FindIndex(cs, mobile) == -1 {
        SettleNewKeepsWellFormed(cs, settings, mobile, name, pin, d, now);
      } else {
        SettleExistingKeepsWellFormed(cs, settings, mobile, name, pin, d, now);
      }
    }
  }

  lemma SettleNewKeepsWellFormed(cs: seq<Customer>, settings: Settings, mobile: string, name: string, pin: string, d: Details, now: int)
    requires WellFormed(cs) && FindIndex(cs, mobile) == -1
    requires Settle(cs, settings, mobile, name, pin, d, now).Accepted?
    ensures WellFormed(Settle(cs, settings, mobile, name, pin, d, now).customers)
  {
    var ncs := Settle(cs, settings, mobile, name, pin, d, now).customers;
    forall j, k | 0 <= j < k < |ncs| ensures ncs[j].mobile != ncs[k].mobile {
      if k < |cs| {
        assert ncs[j] == cs[j] && ncs[k] == cs[k];
      } else {
        assert ncs[j] == cs[j];
      }
    }
    forall j | 0 <= j < |ncs| ensures ncs[j].points >= 0 {
      if j < |cs| { assert ncs[j] == cs[j]; }
    }
  }

  lemma SettleExistingKeepsWellFormed(cs: seq<Customer>, settings: Settings, mobile: string, name: string, pin: string, d: Details, now: int)
    requires WellFormed(cs) && FindIndex(cs, mobile) >= 0
    requires Settle(cs, settings, mobile, name, pin, d, now).Accepted?
    ensures WellFormed(Settle(cs, settings, mobile, name, pin, d, now).customers)
  {
    var ncs := Settle(cs, settings, mobile, name, pin, d, now).customers;
    var c := cs[FindIndex(cs, mobile)];
    BalanceStaysNonNegative(c.points, CustomerPercent(c, settings), d.billAmount, d.pointsToRedeem, d.amountGiven);
    forall j, k | 0 <= j < k < |ncs| ensures ncs[j].mobile != ncs[k].mobile {
      assert ncs[j].mobile == cs[j].mobile && ncs[k].mobile == cs[k].mobile;
    }
  }

  /** After an accepted sale to an existing customer, that customer is still found at
      the same position. */
  lemma SettleExistingKeepsPosition(cs: seq<Customer>, settings: Settings, mobile: string, name: string, pin: string, d: Details, now: int)
    requires FindIndex(cs, mobile) >= 0
    requires Settle(cs, settings, mobile, name, pin, d, now).Accepted?
    ensures FindIndex(Settle(cs, settings, mobile, name, pin, d, now).customers, mobile) == FindIndex(cs, mobile)
  {
    var o := Settle(cs, settings, mobile, name, pin, d, now);
    var i := FindIndex(cs, mobile);
    assert o.customers[i].mobile == mobile;
  }
}
