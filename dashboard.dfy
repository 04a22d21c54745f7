/** The state the dashboard owns (components/Dashboard.tsx): the customer list, the
    SMS log and the settings, with the operations that change them. Loading and saving
    through browser storage is outside the model; the constructor receives what was
    loaded and `Persisted` is what would be written. */
module Dashboard {
  import opened Types
  import opened Tiers
  import opened Pricing
  import opened Settlement
  import opened Reports

  class Ledger {
    var customers: seq<Customer>
    var smsLogs: seq<SmsLog>
    var settings: Settings

    /** The loaded (or seeded) state. */
    constructor (loadedCustomers: seq<Customer>, loadedSettings: Settings, loadedLogs: seq<SmsLog>)
      ensures customers == loadedCustomers && settings == loadedSettings && smsLogs == loadedLogs
    {
      customers := loadedCustomers;
      settings := loadedSettings;
      smsLogs := loadedLogs;
    }

    /** `logSms`: the newest entry goes first, always marked as sent. */
    method LogSms(customerName: string, mobile: string, message: Notice, now: int)
      modifies this`smsLogs
      ensures smsLogs == [SmsLog(now, customerName, mobile, message, Sent)] + old(smsLogs)
    {
      var entry := SmsLog(now, customerName, mobile, message, Sent);
      smsLogs := [entry] + smsLogs;
    }

    /** `handleTransaction`: settles one sale as a single step. On rejection nothing
        changes and no SMS is logged; on acceptance the list becomes the settled list,
        one SMS is logged, and the ledger invariants are kept. */
    method HandleTransaction(mobile: string, name: string, pin: string, d: Details, now: int) returns (success: bool)
      modifies this`customers, this`smsLogs
      ensures settings == old(settings)
      ensures var o := Settle(old(customers), settings, mobile, name, pin, d, now);
        && success == o.Accepted?
        && (o.Rejected? ==> customers == old(customers) && smsLogs == old(smsLogs))
        && (o.Accepted? ==> customers == o.customers && smsLogs == [o.notice] + old(smsLogs))
      ensures WellFormed(old(customers)) ==> WellFormed(customers)
      ensures AllTiersCurrent(old(customers), settings) ==> AllTiersCurrent(customers, settings)
    {
      ghost var before := customers;
      var i := FindIndex(customers, mobile);
      if i == -1 {
        success := SettleNewCustomer(mobile, name, pin, d, now);
      } else {
        success := SettleExistingCustomer(i, mobile, name, pin, d, now);
      }
      if success {
        KeepsInvariants(before, settings, mobile, name, pin, d, now);
      }
    }

    /** The new-customer branch: the change above the bill opens the balance. */
    method SettleNewCustomer(mobile: string, name: string, pin: string, d: Details, now: int) returns (success: bool)
      requires FindIndex(customers, mobile) == -1
      modifies this`customers, this`smsLogs
      ensures var o := Settle(old(customers), settings, mobile, name, pin, d, now);
        && success == o.Accepted?
        && (o.Rejected? ==> customers == old(customers) && smsLogs == old(smsLogs))
        && (o.Accepted? ==> customers == o.customers && smsLogs == [o.notice] + old(smsLogs))
    {
      var finalBill := d.billAmount;
      var pointsEarned := d.amountGiven - finalBill;
      if pointsEarned < 0.0 {
        return false;
      }
      var points := pointsEarned.Floor;
      var entry := HistoryEntry(now, finalBill, points, Earn, 0.0);
      var newCustomer := Customer(mobile, name, pin, points, finalBill, [entry],
        CalculateTier(finalBill, settings.spendingTiers),
        CalculateTier(points as real, settings.pointsTiers));
      assert newCustomer == NewCustomer(mobile, name, pin, settings, d, now);
      LogSms(name, mobile, Welcome(name, points), now);
      customers := customers + [newCustomer];
      success := true;
    }

    /** The existing-customer branch: the record at `i` is copied, charged and written back. */
    method SettleExistingCustomer(i: int, mobile: string, name: string, pin: string, d: Details, now: int) returns (success: bool)
      requires i == FindIndex(customers, mobile) && i >= 0
      modifies this`customers, this`smsLogs
      ensures var o := Settle(old(customers), settings, mobile, name, pin, d, now);
        && success == o.Accepted?
        && (o.Rejected? ==> customers == old(customers) && smsLogs == old(smsLogs))
        && (o.Accepted? ==> customers == o.customers && smsLogs == [o.notice] + old(smsLogs))
    {
      var updated := customers;
      var cust := updated[i];
      // the existing-customer quote of handleTransaction
      var q := CustomerQuote(cust, settings, d);
      if d.amountGiven < q.finalBill {
        return false;
      }
      var netPointsChange := NetPointsChange(d.amountGiven, q);
      var entry := HistoryEntry(now, q.finalBill, netPointsChange,
        if netPointsChange >= 0 then Earn else Redeem, q.totalDiscount);
      cust := cust.(points := cust.points + netPointsChange);
      cust := cust.(totalSpent := cust.totalSpent + q.finalBill);
      cust := cust.(history := cust.history + [entry]);
      cust := cust.(spendingTier := CalculateTier(cust.totalSpent, settings.spendingTiers));
      cust := cust.(pointsTier := CalculateTier(cust.points as real, settings.pointsTiers));
      assert cust == Charged(customers[i], settings, d, now);
      LogSms(cust.name, cust.mobile, Receipt(cust.name, q.finalBill, cust.points), now);
      updated := updated[i := cust];
      customers := updated;
      success := true;
    }

    /** The settings page's save: the new thresholds replace the old ones. The stored
        tiers of the customers are not rewritten in memory. */
    method SaveSettings(newSettings: Settings)
      modifies this`settings
      ensures settings == newSettings
    {
      settings := newSettings;
    }

    /** What the persist effect writes: every customer with both tiers recomputed
        against the current settings. */
    function Persisted(): (r: seq<Customer>)
      reads this
      ensures |r| == |customers| && AllTiersCurrent(r, settings)
      ensures forall j :: 0 <= j < |customers| ==> SameButTiers(r[j], customers[j])
    {
      RecomputeTiers(customers, settings)
    }

    /** The overview cards: how many customers, their total spend and their total points. */
    function Overview(): (s: Stats)
      reads this
      ensures s.totalCustomers == |customers| && s.totalRevenue == TotalRevenue(customers)
      ensures s.totalPoints == TotalPoints(customers)
    {
      ComputeStats(customers)
    }

    /** The analytics figures, with the average order value taken over the overview's revenue. */
    function Analytics(): (m: Metrics)
      reads this
      ensures m.totalTxns == TotalTxns(customers)
      ensures m.totalTxns == 0 ==> m.aov == 0
      ensures m.totalTxns > 0 ==>
        TotalRevenue(customers) / m.totalTxns as real - 0.5 < m.aov as real <= TotalRevenue(customers) / m.totalTxns as real + 0.5
      ensures m.topCustomers == TopCustomers(customers)
    {
      AnalyticsMetrics(customers, TotalRevenue(customers))
    }

    /** `handleExport`, up to the download: the CSV text of the current list. */
    method Export(amountText: real -> string) returns (csv: string)
      ensures csv == CsvHeader + CsvRows(customers, amountText)
    {
      csv := BuildCsv(customers, amountText);
    }
  }

  lemma KeepsInvariants(before: seq<Customer>, settings: Settings, mobile: string, name: string, pin: string, d: Details, now: int)
    requires Settle(before, settings, mobile, name, pin, d, now).Accepted?
    ensures WellFormed(before) ==> WellFormed(Settle(before, settings, mobile, name, pin, d, now).customers)
    ensures AllTiersCurrent(before, settings) ==> AllTiersCurrent(Settle(before, settings, mobile, name, pin, d, now).customers, settings)
  {
    if WellFormed(before) {
      SettlePreservesWellFormed(before, settings, mobile, name, pin, d, now);
    }
    if AllTiersCurrent(before, settings) {
      SettleKeepsTiersCurrent(before, settings, mobile, name, pin, d, now);
    }
  }

  /** A settlement followed by a save of the same list and settings stores exactly
      the settled list when the tiers were current beforehand. */
  method SettleThenPersist(ledger: Ledger, mobile: string, name: string, pin: string, d: Details, now: int)
    returns (success: bool, stored: seq<Customer>)
    requires AllTiersCurrent(ledger.customers, ledger.settings)
    modifies ledger`customers, ledger`smsLogs
    ensures stored == ledger.customers
    ensures !success ==> ledger.customers == old(ledger.customers)
  {
    success := ledger.HandleTransaction(mobile, name, pin, d, now);
    RecomputeCurrentIsIdentity(ledger.customers, ledger.settings);
    stored := ledger.Persisted();
  }
}
