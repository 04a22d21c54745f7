/** The cashier's transaction form (components/Dashboard.tsx, TransactionForm): the
    figures it shows before a sale is committed, the PIN gate that opens the billing
    fields, and the submit gate that decides whether the sale is passed on. */
module TransactionForm {
  import opened Types
  import opened Tiers
  import opened Pricing
  import opened Settlement

  /** The message shown under the form. */
  datatype FormError = NoError | IncorrectPin | ShortTender(given: real, finalBill: real) | MissingFields | TransactionFailed

  /** The form's state. An amount field is None while it is empty and otherwise holds
      the number typed into it. */
  datatype Form = Form(
    mobile: string,
    name: string,
    pin: string,
    bill: Option<real>,
    given: Option<real>,
    usePoints: bool,
    billingVisible: bool,
    error: FormError)

  /** `Number(field)`: an empty field reads as 0. */
  function Amount(field: Option<real>): real {
    match field
    case None => 0.0
    case Some(v) => v
  }

  /** `customers.find` by mobile number: the first record with that number. */
  function Lookup(cs: seq<Customer>, mobile: string): (r: Option<Customer>)
    ensures r.None? <==> FindIndex(cs, mobile) == -1
    ensures r.Some? ==> r == Some(cs[FindIndex(cs, mobile)])
  {
    var i := FindIndex(cs, mobile);
    if i == -1 then None else Some(cs[i])
  }

  /** The figures the form shows. */
  datatype Preview = Preview(
    finalTier: Tier,
    tierDiscountPercent: int,
    tierDiscountAmount: real,
    billAfterTierDiscount: real,
    pointsToRedeem: real,
    totalDiscount: real,
    finalBill: real,
    pointsEarned: int)

  /** The points balance the form offers for redemption (`existingCustomer?.points || 0`). */
  function OfferedBalance(existing: Option<Customer>): int {
    match existing
    case None => 0
    case Some(c) => c.points
  }

  /** The preview as the form computes it. A new customer is Bronze with no discount;
      the tier discount is shown whenever "use points" is ticked, and the points to
      redeem are as many as the balance allows, up to what is left after that discount.
      The final bill is clamped at 0 and the points earned are the whole part of the
      change. */
  function PreviewFor(existing: Option<Customer>, settings: Settings, bill: real, given: real, usePoints: bool): (p: Preview)
    ensures existing.None? ==> p.finalTier == Bronze && p.tierDiscountPercent == 0
    ensures existing.Some? ==>
      && Rank(p.finalTier) == Max(Rank(existing.value.spendingTier), Rank(existing.value.pointsTier))
      && p.tierDiscountPercent == settings.discounts.Get(p.finalTier)
    ensures !usePoints ==> p.tierDiscountAmount == 0.0 && p.pointsToRedeem == 0.0
    ensures usePoints ==> p.tierDiscountAmount == bill * p.tierDiscountPercent as real / 100.0
    ensures p.billAfterTierDiscount == bill - p.tierDiscountAmount
    ensures usePoints ==>
      && p.pointsToRedeem <= OfferedBalance(existing) as real
      && p.pointsToRedeem <= p.billAfterTierDiscount
      && (p.pointsToRedeem == OfferedBalance(existing) as real || p.pointsToRedeem == p.billAfterTierDiscount)
    ensures p.totalDiscount == p.tierDiscountAmount + p.pointsToRedeem
    ensures p.finalBill >= 0.0 && p.finalBill >= bill - p.totalDiscount
    ensures p.finalBill == 0.0 || p.finalBill == bill - p.totalDiscount
    ensures p.pointsEarned >= 0
    ensures p.pointsEarned as real <= MaxReal(0.0, given - p.finalBill) < p.pointsEarned as real + 1.0
  {
    var finalTier := match existing
      case None => Bronze
      case Some(c) => EffectiveTier(c.spendingTier, c.pointsTier);
    var percent := match existing
      case None => 0
      case Some(_) => DiscountPercent(settings.discounts, finalTier);
    var tierDiscountAmount := if !usePoints then 0.0 else (bill * percent as real) / 100.0;
    var billAfter := bill - tierDiscountAmount;
    var pointsToRedeem := if usePoints then MinReal(OfferedBalance(existing) as real, billAfter) else 0.0;
    var totalDiscount := tierDiscountAmount + pointsToRedeem;
    var finalBill := MaxReal(0.0, bill - totalDiscount);
    Preview(finalTier, percent, tierDiscountAmount, billAfter, pointsToRedeem, totalDiscount,
      finalBill, MaxReal(0.0, given - finalBill).Floor)
  }

  /** The amounts the form would hand to settlement. */
  function DetailsOf(f: Form, existing: Option<Customer>, settings: Settings): (d: Details)
    ensures d.billAmount == Amount(f.bill) && d.amountGiven == Amount(f.given)
    ensures d.pointsToRedeem == PreviewFor(existing, settings, Amount(f.bill), Amount(f.given), f.usePoints).pointsToRedeem
  {
    var p := PreviewFor(existing, settings, Amount(f.bill), Amount(f.given), f.usePoints);
    Details(Amount(f.bill), Amount(f.given), p.pointsToRedeem)
  }

  /** The final bill shown, corrected to be what settlement will charge: the quote an
      existing customer gets for the points the form sends, and the plain bill for a
      new customer. */
  function CorrectedFinalBill(f: Form, existing: Option<Customer>, settings: Settings): (b: real)
    ensures existing.Some? ==> b == CustomerQuote(existing.value, settings, DetailsOf(f, existing, settings)).finalBill
    ensures existing.None? ==> b == Amount(f.bill)
  {
    match existing
    case None => Amount(f.bill)
    case Some(c) => CustomerQuote(c, settings, DetailsOf(f, existing, settings)).finalBill
  }

  /** `isFormReady`: the billing fields are open, both amounts are filled in, and the
      tender covers the final bill. */
  predicate IsFormReady(f: Form, finalBill: real): (ready: bool)
    ensures ready ==> f.bill.Some? && f.given.Some? && Amount(f.given) >= finalBill
  {
    f.billingVisible && f.bill.Some? && f.given.Some? && Amount(f.given) >= finalBill
  }

  /** What pressing submit produces: an error, or the details passed to settlement. */
  datatype SubmitResult = Blocked(error: FormError) | Submitted(details: Details)

  /** The submit decision for a given final bill: the form goes through when it is
      ready; otherwise a short tender is reported before missing fields. */
  function SubmitAgainst(f: Form, existing: Option<Customer>, settings: Settings, finalBill: real): (r: SubmitResult)
    ensures r.Submitted? <==> IsFormReady(f, finalBill)
    ensures r.Submitted? ==> r.details == DetailsOf(f, existing, settings)
    ensures r.Blocked? ==> (r.error == ShortTender(Amount(f.given), finalBill) <==> Amount(f.given) < finalBill)
    ensures r.Blocked? ==> r.error.ShortTender? || r.error == MissingFields
  {
    if !IsFormReady(f, finalBill) then
      if Amount(f.given) < finalBill then Blocked(ShortTender(Amount(f.given), finalBill))
      else Blocked(MissingFields)
    else Submitted(DetailsOf(f, existing, settings))
  }

  /** `handleSubmit` as written, up to the call into settlement: the gate compares the
      tender with the previewed final bill. */
  function Submit(f: Form, existing: Option<Customer>, settings: Settings): (r: SubmitResult)
    ensures var p := PreviewFor(existing, settings, Amount(f.bill), Amount(f.given), f.usePoints);
      && (r.Submitted? <==> IsFormReady(f, p.finalBill))
      && (r.Submitted? ==> r.details == DetailsOf(f, existing, settings))
      && (r.Blocked? ==> (r.error == ShortTender(Amount(f.given), p.finalBill) <==> Amount(f.given) < p.finalBill))
      && (r.Blocked? ==> r.error.ShortTender? || r.error == MissingFields)
  {
    SubmitAgainst(f, existing, settings, PreviewFor(existing, settings, Amount(f.bill), Amount(f.given), f.usePoints).finalBill)
  }

  /** The corrected `handleSubmit`: the gate compares the tender with what settlement
      will charge. */
  function CorrectedSubmit(f: Form, existing: Option<Customer>, settings: Settings): (r: SubmitResult)
    ensures r.Submitted? <==> IsFormReady(f, CorrectedFinalBill(f, existing, settings))
    ensures r.Submitted? ==> r.details == DetailsOf(f, existing, settings)
    ensures r.Blocked? ==>
      (r.error == ShortTender(Amount(f.given), CorrectedFinalBill(f, existing, settings)) <==>
         Amount(f.given) < CorrectedFinalBill(f, existing, settings))
    ensures r.Blocked? ==> r.error.ShortTender? || r.error == MissingFields
  {
    SubmitAgainst(f, existing, settings, CorrectedFinalBill(f, existing, settings))
  }

  /** The gate never admits a negative tender, because the previewed final bill is
      clamped at 0. */
  lemma NegativeTenderBlocked(f: Form, existing: Option<Customer>, settings: Settings)
    requires Amount(f.given) < 0.0
    ensures var p := PreviewFor(existing, settings, Amount(f.bill), Amount(f.given), f.usePoints);
      Submit(f, existing, settings) == Blocked(ShortTender(Amount(f.given), p.finalBill))
  {
  }

  /** A negative bill from a new customer passes the form and is settled as typed: the
      record starts with a negative total spend and the "change" as points. */
  lemma NegativeBillSettled()
    ensures var f := Form("9000000000", "Ravi", "4321", Some(-100.0), Some(0.0), false, true, NoError);
      var o := Settle([], DefaultSettings, f.mobile, f.name, f.pin, DetailsOf(f, None, DefaultSettings), 0);
      && Submit(f, None, DefaultSettings).Submitted?
      && o.Accepted? && o.customers[0].totalSpent == -100.0 && o.customers[0].points == 100
  {
    var f := Form("9000000000", "Ravi", "4321", Some(-100.0), Some(0.0), false, true, NoError);
    assert FindIndex([], f.mobile) == -1;
  }

  /** The form `resetForm` leaves behind: every field empty, the box unticked and the
      billing fields shut. */
  const EmptyForm := Form("", "", "", None, None, false, false, NoError)

  /** `handleSubmit` to its end: a blocked form shows why; a submitted one is settled
      (`onTransaction`), and the form is reset when the sale is accepted and shows the
      failure otherwise. */
  function HandleSubmit(f: Form, cs: seq<Customer>, settings: Settings, now: int): (g: Form)
    ensures var r := Submit(f, Lookup(cs, f.mobile), settings);
      && (r.Blocked? ==> g == f.(error := r.error))
      && (r.Submitted? && Settle(cs, settings, f.mobile, f.name, f.pin, r.details, now).Accepted? ==> g == EmptyForm)
      && (r.Submitted? && Settle(cs, settings, f.mobile, f.name, f.pin, r.details, now).Rejected? ==>
            g == f.(error := TransactionFailed))
    ensures g.error == TransactionFailed <==>
      Submit(f, Lookup(cs, f.mobile), settings).Submitted? &&
      Settle(cs, settings, f.mobile, f.name, f.pin, DetailsOf(f, Lookup(cs, f.mobile), settings), now).Rejected?
  {
    match Submit(f, Lookup(cs, f.mobile), settings)
    case Blocked(e) => f.(error := e)
    case Submitted(d) =>
      if Settle(cs, settings, f.mobile, f.name, f.pin, d, now).Accepted? then EmptyForm
      else f.(error := TransactionFailed)
  }

  /** The settlement failure is reported only where the as-written gate lets through a
      sale that the corrected gate would have blocked. */
  lemma FailureOnlyWhereGatesDisagree(f: Form, cs: seq<Customer>, settings: Settings, now: int)
    requires HandleSubmit(f, cs, settings, now).error == TransactionFailed
    ensures Submit(f, Lookup(cs, f.mobile), settings).Submitted?
    ensures CorrectedSubmit(f, Lookup(cs, f.mobile), settings).Blocked?
  {
    CorrectedSubmitAgreesWithSettle(cs, settings, f, now);
  }

  /** The corrected submit that also checks the PIN against the customer the mobile
      number names when the form is submitted. */
  function PinCheckedSubmit(f: Form, existing: Option<Customer>, settings: Settings): (r: SubmitResult)
    ensures existing.Some? && existing.value.pin != f.pin ==> r == Blocked(IncorrectPin)
    ensures existing.None? || existing.value.pin == f.pin ==> r == Submit(f, existing, settings)
  {
    if existing.Some? && existing.value.pin != f.pin then Blocked(IncorrectPin)
    else Submit(f, existing, settings)
  }

  /** With the PIN checked at submission, a sale to an existing customer goes through only
      with that customer's PIN. */
  lemma PinCheckedSubmitNeedsPin(f: Form, cs: seq<Customer>, settings: Settings)
    requires PinCheckedSubmit(f, Lookup(cs, f.mobile), settings).Submitted?
    ensures FindIndex(cs, f.mobile) >= 0 ==> cs[FindIndex(cs, f.mobile)].pin == f.pin
  {
    if FindIndex(cs, f.mobile) >= 0 {
      assert Lookup(cs, f.mobile) == Some(cs[FindIndex(cs, f.mobile)]);
    }
  }

  /** The form as written checks the PIN only while it is typed. A PIN typed for an
      unknown number opens the billing fields; changing the number to a known customer's
      leaves them open (the mobile field's change handler sets only the number, and its
      blur handler closes billing only for fewer than ten characters), and the sale
      redeems that customer's points without their PIN. The PIN-checked submit blocks it. */
  lemma PinNotRecheckedOnSubmit()
    ensures var c := Customer("9876543210", "Asha", "1234", 500, 2500.0, [], Silver, Bronze);
      var f1 := HandlePinChange(Form("9000000000", "", "", None, None, false, false, NoError), "0000", None);
      var f := f1.(mobile := c.mobile, name := c.name, bill := Some(100.0), given := Some(0.0), usePoints := true);
      var o := Settle([c], DefaultSettings, f.mobile, f.name, f.pin, DetailsOf(f, Some(c), DefaultSettings), 0);
      && f.billingVisible && f.pin != c.pin
      && Submit(f, Lookup([c], f.mobile), DefaultSettings).Submitted?
      && o.Accepted? && o.customers[0].points == 405
      && PinCheckedSubmit(f, Lookup([c], f.mobile), DefaultSettings) == Blocked(IncorrectPin)
  {
    var c := Customer("9876543210", "Asha", "1234", 500, 2500.0, [], Silver, Bronze);
    assert Utf16Length("0000") == 4 by {
      assert "0000"[1..] == "000" && "000"[1..] == "00" && "00"[1..] == "0";
    }
    assert FindIndex([c], c.mobile) == 0;
    assert CustomerPercent(c, DefaultSettings) == 5;
  }

  /** With the corrected gate the form lets a sale through exactly when settlement
      accepts it: the gate and the commit never disagree. */
  lemma CorrectedSubmitAgreesWithSettle(cs: seq<Customer>, settings: Settings, f: Form, now: int)
    requires f.billingVisible && f.bill.Some? && f.given.Some?
    ensures var existing := Lookup(cs, f.mobile);
      CorrectedSubmit(f, existing, settings).Submitted? <==>
        Settle(cs, settings, f.mobile, f.name, f.pin, DetailsOf(f, existing, settings), now).Accepted?
  {
  }

  /** The points to redeem that the form sends are redeemed in full by settlement, and
      the tier discount it shows is the one granted, whenever they are positive. */
  lemma CommittedRedemptionIsPreviewed(c: Customer, settings: Settings, bill: real, given: real, usePoints: bool)
    requires PreviewFor(Some(c), settings, bill, given, usePoints).pointsToRedeem > 0.0
    ensures var p := PreviewFor(Some(c), settings, bill, given, usePoints);
      var q := CustomerQuote(c, settings, Details(bill, given, p.pointsToRedeem));
      && q.redemption == p.pointsToRedeem
      && q.tierDiscount == p.tierDiscountAmount
      && q.finalBill == p.finalBill
  {
    var p := PreviewFor(Some(c), settings, bill, given, usePoints);
    assert usePoints;
    assert p.tierDiscountPercent == CustomerPercent(c, settings);
  }

  /** Without "use points", a customer with a non-negative balance is charged the
      previewed bill, provided the bill is not negative. */
  lemma NoPointsPreviewIsCommitted(c: Customer, settings: Settings, bill: real, given: real)
    requires c.points >= 0 && bill >= 0.0
    ensures var p := PreviewFor(Some(c), settings, bill, given, false);
      var q := CustomerQuote(c, settings, Details(bill, given, p.pointsToRedeem));
      && q.redemption == 0.0 && q.tierDiscount == 0.0 && q.finalBill == p.finalBill
  {
  }

  /** So the form as written agrees with settlement whenever it sends a positive
      redemption or none was asked for on a non-negative bill. */
  lemma AsWrittenGateAgreesWhenRedeeming(cs: seq<Customer>, settings: Settings, f: Form, now: int)
    requires Lookup(cs, f.mobile).Some?
    requires f.billingVisible && f.bill.Some? && f.given.Some?
    requires var p := PreviewFor(Lookup(cs, f.mobile), settings, Amount(f.bill), Amount(f.given), f.usePoints);
      p.pointsToRedeem > 0.0 || (!f.usePoints && Amount(f.bill) >= 0.0 && Lookup(cs, f.mobile).value.points >= 0)
    ensures var existing := Lookup(cs, f.mobile);
      Submit(f, existing, settings).Submitted? <==>
        Settle(cs, settings, f.mobile, f.name, f.pin, DetailsOf(f, existing, settings), now).Accepted?
  {
    var existing := Lookup(cs, f.mobile);
    var p := PreviewFor(existing, settings, Amount(f.bill), Amount(f.given), f.usePoints);
    if p.pointsToRedeem > 0.0 {
      CommittedRedemptionIsPreviewed(existing.value, settings, Amount(f.bill), Amount(f.given), f.usePoints);
    } else {
      NoPointsPreviewIsCommitted(existing.value, settings, Amount(f.bill), Amount(f.given));
    }
  }

  /** The form as written, on a Silver customer (5% off by default) with no points and
      "use points" still ticked from an earlier customer: it shows 95 to pay for a bill
      of 100 and submits a tender of 95, but settlement, which gives the tier discount
      only when a positive number of points is sent (the form sends 0), charges 100 and rejects the sale. The
      corrected gate blocks it as a short tender instead. */
  lemma AsWrittenPreviewUndercharges()
    ensures var c := Customer("9876543210", "Asha", "1234", 0, 2500.0, [], Silver, Bronze);
      var f := Form("9876543210", "Asha", "1234", Some(100.0), Some(95.0), true, true, NoError);
      && PreviewFor(Some(c), DefaultSettings, 100.0, 95.0, true).finalBill == 95.0
      && Submit(f, Some(c), DefaultSettings).Submitted?
      && Settle([c], DefaultSettings, f.mobile, f.name, f.pin, DetailsOf(f, Some(c), DefaultSettings), 0).Rejected?
      && CorrectedSubmit(f, Some(c), DefaultSettings) == Blocked(ShortTender(95.0, 100.0))
      && HandleSubmit(f, [c], DefaultSettings, 0).error == TransactionFailed
  {
    var c := Customer("9876543210", "Asha", "1234", 0, 2500.0, [], Silver, Bronze);
    var f := Form("9876543210", "Asha", "1234", Some(100.0), Some(95.0), true, true, NoError);
    assert FindIndex([c], f.mobile) == 0;
    assert CustomerPercent(c, DefaultSettings) == 5;
  }

  /** A second witness that needs no stale checkbox: with a Silver discount of 150%,
      which the settings form accepts, a customer with 10 points (so the box is shown)
      and a bill of 100 is sent a redemption of -50. The preview clamps the final bill
      to 0 and the form submits a tender of 0, but settlement, which gives no tier
      discount for a request that is not positive, redeems -50 and charges 150. */
  lemma AsWrittenNegativeRedemptionUndercharges()
    ensures var settings := Settings(DefaultSettings.spendingTiers, DefaultSettings.pointsTiers, Table(15, 10, 150, 0));
      var c := Customer("9876543210", "Asha", "1234", 10, 2500.0, [], Silver, Bronze);
      var f := Form("9876543210", "Asha", "1234", Some(100.0), Some(0.0), true, true, NoError);
      && PreviewFor(Some(c), settings, 100.0, 0.0, true).pointsToRedeem == -50.0
      && PreviewFor(Some(c), settings, 100.0, 0.0, true).finalBill == 0.0
      && Submit(f, Some(c), settings).Submitted?
      && CustomerQuote(c, settings, DetailsOf(f, Some(c), settings)).finalBill == 150.0
      && Settle([c], settings, f.mobile, f.name, f.pin, DetailsOf(f, Some(c), settings), 0).Rejected?
      && HandleSubmit(f, [c], settings, 0).error == TransactionFailed
  {
    var settings := Settings(DefaultSettings.spendingTiers, DefaultSettings.pointsTiers, Table(15, 10, 150, 0));
    var c := Customer("9876543210", "Asha", "1234", 10, 2500.0, [], Silver, Bronze);
    var f := Form("9876543210", "Asha", "1234", Some(100.0), Some(0.0), true, true, NoError);
    assert FindIndex([c], f.mobile) == 0;
    assert CustomerPercent(c, settings) == 150;
  }

  /** For a new customer with a non-negative bill the points shown as earned are the
      opening balance settlement will record. */
  lemma PreviewEarnedIsOpeningBalance(settings: Settings, mobile: string, name: string, pin: string, bill: real, given: real, usePoints: bool, now: int)
    requires bill >= 0.0 && given >= bill
    ensures PreviewFor(None, settings, bill, given, usePoints).pointsEarned
      == NewCustomer(mobile, name, pin, settings, Details(bill, given, 0.0), now).points
  {
  }

  /** JavaScript's `length`: the number of UTF-16 code units, two for a character
      outside the Basic Multilingual Plane. */
  function Utf16Length(s: string): (n: nat)
    ensures |s| <= n <= 2 * |s|
    ensures (forall i :: 0 <= i < |s| ==> (s[i] as int) < 0x1_0000) ==> n == |s|
  {
    if |s| == 0 then 0
    else
      assert forall i :: 0 <= i < |s| - 1 ==> s[1..][i] == s[i + 1];
      (if (s[0] as int) < 0x1_0000 then 1 else 2) + Utf16Length(s[1..])
  }

  /** Two emoji are four code units long, and four digits are four as well. */
  lemma Utf16LengthExamples()
    ensures Utf16Length("\U{1F600}\U{1F600}") == 4 && |"\U{1F600}\U{1F600}"| == 2
    ensures Utf16Length("1234") == 4
  {
    assert "\U{1F600}\U{1F600}"[1..] == "\U{1F600}";
    assert "1234"[1..] == "234" && "234"[1..] == "34" && "34"[1..] == "4";
  }

  /** `handlePinChange`: the PIN field takes the value; with four code units the billing
      fields open for a new customer or a matching PIN, and a wrong PIN of an existing
      customer is reported; any other length closes them and leaves the message alone. */
  function HandlePinChange(f: Form, value: string, existing: Option<Customer>): (g: Form)
    ensures g.pin == value
    ensures g.billingVisible <==> Utf16Length(value) == 4 && (existing.None? || existing.value.pin == value)
    ensures g.billingVisible ==> g.error == NoError
    ensures Utf16Length(value) == 4 && existing.Some? && existing.value.pin != value ==> g.error == IncorrectPin
    ensures Utf16Length(value) != 4 ==> g.error == f.error
    ensures g == f.(pin := value, billingVisible := g.billingVisible, error := g.error)
  {
    var f1 := f.(pin := value);
    if Utf16Length(value) == 4 then
      if (existing.Some? && existing.value.pin == value) || existing.None? then
        f1.(error := NoError, billingVisible := true)
      else
        f1.(error := IncorrectPin, billingVisible := false)
    else
      f1.(billingVisible := false)
  }

  /** Typing the same PIN again changes nothing. */
  lemma HandlePinChangeIdempotent(f: Form, value: string, existing: Option<Customer>)
    ensures HandlePinChange(HandlePinChange(f, value, existing), value, existing) == HandlePinChange(f, value, existing)
  {
  }
}
