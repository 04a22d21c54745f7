/** Read-only views over the customer list (components/Dashboard.tsx): the
    tier recompute applied when the list is persisted, the overview statistics,
    the analytics metrics and the CSV export rows. */
module Reports {
  import opened Types
  import opened Tiers
  import opened Numerals
  import opened Settlement

  // ---------------------------------------------------------------------------
  // Tier recompute at persist time
  // ---------------------------------------------------------------------------

  /** Both tiers of a customer agree with the thresholds. */
  ghost predicate TiersCurrent(c: Customer, settings: Settings) {
    && c.spendingTier == CalculateTier(c.totalSpent, settings.spendingTiers)
    && c.pointsTier == CalculateTier(c.points as real, settings.pointsTiers)
  }

  ghost predicate AllTiersCurrent(cs: seq<Customer>, settings: Settings) {
    forall j :: 0 <= j < |cs| ==> TiersCurrent(cs[j], settings)
  }

  /** Customers differ at most in their tier fields. */
  ghost predicate SameButTiers(c: Customer, d: Customer) {
    c.(spendingTier := Bronze, pointsTier := Bronze) == d.(spendingTier := Bronze, pointsTier := Bronze)
  }

  /** The list written to storage: every customer with both tiers recomputed. */
  function RecomputeTiers(cs: seq<Customer>, settings: Settings): (r: seq<Customer>)
    ensures |r| == |cs|
    ensures AllTiersCurrent(r, settings)
    ensures forall j :: 0 <= j < |cs| ==> SameButTiers(r[j], cs[j])
  {
    seq(|cs|, j requires 0 <= j < |cs| =>
      cs[j].(spendingTier := CalculateTier(cs[j].totalSpent, settings.spendingTiers),
             pointsTier := CalculateTier(cs[j].points as real, settings.pointsTiers)))
  }

  /** A list whose tiers are already current is stored unchanged, so saving and
      reloading with the same thresholds never drifts. */
  lemma RecomputeCurrentIsIdentity(cs: seq<Customer>, settings: Settings)
    requires AllTiersCurrent(cs, settings)
    ensures RecomputeTiers(cs, settings) == cs
  {
    var r := RecomputeTiers(cs, settings);
    forall j | 0 <= j < |cs| ensures r[j] == cs[j] {
      assert TiersCurrent(cs[j], settings);
    }
  }

  lemma RecomputeIdempotent(cs: seq<Customer>, settings: Settings)
    ensures RecomputeTiers(RecomputeTiers(cs, settings), settings) == RecomputeTiers(cs, settings)
  {
    RecomputeCurrentIsIdentity(RecomputeTiers(cs, settings), settings);
  }

  /** Settlement keeps every tier current: the customer it touches is recomputed and
      the others are untouched. */
  lemma SettleKeepsTiersCurrent(cs: seq<Customer>, settings: Settings, mobile: string, name: string, pin: string, d: Details, now: int)
    requires AllTiersCurrent(cs, settings)
    requires Settle(cs, settings, mobile, name, pin, d, now).Accepted?
    ensures AllTiersCurrent(Settle(cs, settings, mobile, name, pin, d, now).customers, settings)
  {
    var o := Settle(cs, settings, mobile, name, pin, d, now);
    var i := FindIndex(cs, mobile);
    forall j | 0 <= j < |o.customers| ensures TiersCurrent(o.customers[j], settings) {
      if i == -1 {
        if j < |cs| {
          assert o.customers[j] == o.customers[..|cs|][j] == cs[j];
        }
      } else if j != i {
        assert o.customers[j] == cs[j];
      }
    }
  }

  // ---------------------------------------------------------------------------
  // Overview statistics (left folds over the list, `value || 0` is the value itself)
  // ---------------------------------------------------------------------------

  /** The sum of all total spends; it is never negative when no spend is. */
  function TotalRevenue(cs: seq<Customer>): (r: real)
    ensures (forall j :: 0 <= j < |cs| ==> cs[j].totalSpent >= 0.0) ==> r >= 0.0
  {
    if |cs| == 0 then 0.0 else TotalRevenue(cs[..|cs| - 1]) + cs[|cs| - 1].totalSpent
  }

  /** The sum of all balances; it is never negative when no balance is. */
  function TotalPoints(cs: seq<Customer>): (r: int)
    ensures (forall j :: 0 <= j < |cs| ==> cs[j].points >= 0) ==> r >= 0
  {
    if |cs| == 0 then 0 else TotalPoints(cs[..|cs| - 1]) + cs[|cs| - 1].points
  }

  /** The number of history entries over all customers; zero exactly when every
      history is empty. */
  function TotalTxns(cs: seq<Customer>): (n: nat)
    ensures n == 0 <==> forall j :: 0 <= j < |cs| ==> |cs[j].history| == 0
  {
    if |cs| == 0 then 0 else TotalTxns(cs[..|cs| - 1]) + |cs[|cs| - 1].history|
  }

  datatype Stats = Stats(totalCustomers: nat, totalRevenue: real, totalPoints: int)

  /** `stats`: the customer count, the revenue and the points outstanding. */
  function ComputeStats(cs: seq<Customer>): (s: Stats)
    ensures s.totalCustomers == |cs| && s.totalRevenue == TotalRevenue(cs) && s.totalPoints == TotalPoints(cs)
    ensures (forall j :: 0 <= j < |cs| ==> cs[j].points >= 0) ==> s.totalPoints >= 0
  {
    Stats(|cs|, TotalRevenue(cs), TotalPoints(cs))
  }

  /** Replacing one customer changes each total by the difference of the two records. */
  lemma {:induction false} TotalsOfUpdate(cs: seq<Customer>, i: nat, c: Customer)
    requires i < |cs|
    ensures TotalRevenue(cs[i := c]) == TotalRevenue(cs) - cs[i].totalSpent + c.totalSpent
    ensures TotalPoints(cs[i := c]) == TotalPoints(cs) - cs[i].points + c.points
    ensures TotalTxns(cs[i := c]) == TotalTxns(cs) - |cs[i].history| + |c.history|
  {
    var n := |cs| - 1;
    var u := cs[i := c];
    if i == n {
      assert u[..n] == cs[..n];
    } else {
      assert u[..n] == cs[..n][i := c];
      TotalsOfUpdate(cs[..n], i, c);
    }
  }

  /** An accepted settlement adds the amount charged to the revenue, its point change
      to the outstanding points, and exactly one transaction. */
  lemma SettleMovesTotals(cs: seq<Customer>, settings: Settings, mobile: string, name: string, pin: string, d: Details, now: int)
    requires Settle(cs, settings, mobile, name, pin, d, now).Accepted?
    ensures var o := Settle(cs, settings, mobile, name, pin, d, now);
      var i := FindIndex(cs, mobile);
      var c := if i == -1 then o.customers[|cs|] else o.customers[i];
      var e := c.history[|c.history| - 1];
      && TotalRevenue(o.customers) == TotalRevenue(cs) + e.bill
      && TotalPoints(o.customers) == TotalPoints(cs) + e.points
      && TotalTxns(o.customers) == TotalTxns(cs) + 1
      && ComputeStats(o.customers).totalCustomers == |cs| + (if i == -1 then 1 else 0)
  {
    var o := Settle(cs, settings, mobile, name, pin, d, now);
    var i := FindIndex(cs, mobile);
    if i == -1 {
      assert o.customers[..|cs|] == cs;
    } else {
      assert o.customers == cs[i := o.customers[i]];
      TotalsOfUpdate(cs, i, o.customers[i]);
    }
  }

  // ---------------------------------------------------------------------------
  // Analytics metrics
  // ---------------------------------------------------------------------------

  /** `Math.round`: the nearest integer, halves rounded up. */
  function Round(x: real): (n: int)
    ensures x - 0.5 < n as real <= x + 0.5
  {
    (x + 0.5).Floor
  }

  /** Descending by total spend. */
  ghost predicate SortedBySpend(s: seq<Customer>) {
    forall j, k :: 0 <= j < k < |s| ==> s[j].totalSpent >= s[k].totalSpent
  }

  /** The head of a sorted list, spending at least as much as `c`, can go in front of
      the insertion of `c` into the tail. */
  lemma InsertBehindHead(s: seq<Customer>, c: Customer, rest: seq<Customer>)
    requires |s| > 0 && SortedBySpend(s) && s[0].totalSpent >= c.totalSpent
    requires SortedBySpend(rest)
    requires forall x :: x in rest ==> x in s[1..] || x == c
    requires multiset(rest) == multiset(s[1..]) + multiset{c}
    ensures forall x :: x in [s[0]] + rest ==> x in s || x == c
    ensures SortedBySpend([s[0]] + rest)
    ensures multiset([s[0]] + rest) == multiset(s) + multiset{c}
  {
    var r := [s[0]] + rest;
    assert s == [s[0]] + s[1..];
    forall j, k | 0 <= j < k < |r| ensures r[j].totalSpent >= r[k].totalSpent {
      assert r[k] == rest[k - 1] && rest[k - 1] in rest;
      if j > 0 {
        assert r[j] == rest[j - 1];
      }
    }
  }

  /** Inserts after every customer who spent at least as much, so equal spenders keep
      their order, as the stable library sort does. */
  function InsertBySpend(s: seq<Customer>, c: Customer): (r: seq<Customer>)
    requires SortedBySpend(s)
    ensures |r| == |s| + 1
    ensures forall x :: x in r ==> x in s || x == c
    ensures SortedBySpend(r)
    ensures multiset(r) == multiset(s) + multiset{c}
  {
    if |s| == 0 then [c]
    else if s[0].totalSpent >= c.totalSpent then
      var rest := InsertBySpend(s[1..], c);
      InsertBehindHead(s, c, rest);
      [s[0]] + rest
    else
      [c] + s
  }

  /** The customers of a list who spent exactly `v`, in list order. */
  function WithSpend(s: seq<Customer>, v: real): seq<Customer> {
    if |s| == 0 then [] else (if s[0].totalSpent == v then [s[0]] else []) + WithSpend(s[1..], v)
  }

  lemma {:induction false} WithSpendAppend(a: seq<Customer>, b: seq<Customer>)
    ensures forall v :: WithSpend(a + b, v) == WithSpend(a, v) + WithSpend(b, v)
  {
    if |a| == 0 {
      assert a + b == b;
    } else {
      assert (a + b)[1..] == a[1..] + b;
      WithSpendAppend(a[1..], b);
    }
  }

  lemma {:induction false} WithSpendNone(s: seq<Customer>, v: real)
    requires forall k :: 0 <= k < |s| ==> s[k].totalSpent < v
    ensures WithSpend(s, v) == []
  {
    if |s| > 0 {
      WithSpendNone(s[1..], v);
    }
  }

  lemma WithSpendCons(x: Customer, t: seq<Customer>, v: real)
    ensures WithSpend([x] + t, v) == (if x.totalSpent == v then [x] else []) + WithSpend(t, v)
  {
    assert ([x] + t)[1..] == t;
  }

  /** Prepending one customer to both sides of a stability equation keeps it. */
  lemma WithSpendConsStep(x: Customer, r: seq<Customer>, s: seq<Customer>, t: seq<Customer>, v: real)
    requires WithSpend(r, v) == WithSpend(s, v) + t
    ensures WithSpend([x] + r, v) == WithSpend([x] + s, v) + t
  {
    WithSpendCons(x, r, v);
    WithSpendCons(x, s, v);
  }

  /** Insertion puts the new customer after every earlier customer of the same spend. */
  lemma {:induction false} InsertBySpendStableAt(s: seq<Customer>, c: Customer, v: real)
    requires SortedBySpend(s)
    ensures WithSpend(InsertBySpend(s, c), v) == WithSpend(s, v) + (if c.totalSpent == v then [c] else [])
  {
    var t := if c.totalSpent == v then [c] else [];
    if |s| == 0 {
      WithSpendCons(c, [], v);
    } else if s[0].totalSpent >= c.totalSpent {
      InsertBySpendStableAt(s[1..], c, v);
      WithSpendConsStep(s[0], InsertBySpend(s[1..], c), s[1..], t, v);
      assert [s[0]] + s[1..] == s;
    } else {
      WithSpendCons(c, s, v);
      if c.totalSpent == v {
        WithSpendNone(s, v);
      }
    }
  }

  lemma InsertBySpendStable(s: seq<Customer>, c: Customer)
    requires SortedBySpend(s)
    ensures forall v :: WithSpend(InsertBySpend(s, c), v) == WithSpend(s, v) + (if c.totalSpent == v then [c] else [])
  {
    forall v ensures WithSpend(InsertBySpend(s, c), v) == WithSpend(s, v) + (if c.totalSpent == v then [c] else []) {
      InsertBySpendStableAt(s, c, v);
    }
  }

  /** `[...customers].sort((a, b) => b.totalSpent - a.totalSpent)`. The library sort is
      stable: customers who spent the same stay in list order. */
  function SortBySpend(cs: seq<Customer>): (r: seq<Customer>)
    ensures |r| == |cs|
    ensures SortedBySpend(r)
    ensures multiset(r) == multiset(cs)
    ensures forall v :: WithSpend(r, v) == WithSpend(cs, v)
  {
    if |cs| == 0 then []
    else
      var init := cs[..|cs| - 1];
      var last := cs[|cs| - 1];
      assert cs == init + [last];
      assert forall v :: WithSpend([last], v) == (if last.totalSpent == v then [last] else []) by {
        assert [last][1..] == [];
      }
      InsertBySpendStable(SortBySpend(init), last);
      WithSpendAppend(init, [last]);
      InsertBySpend(SortBySpend(init), last)
  }

  /** The five biggest spenders, biggest first: nobody left out spent more than
      anybody listed, and among customers who spent the same, those listed are the
      first ones in list order. */
  function TopCustomers(cs: seq<Customer>): (r: seq<Customer>)
    ensures |r| == Min(5, |cs|)
    ensures SortedBySpend(r)
    ensures multiset(r) <= multiset(cs)
    ensures forall j, t :: 0 <= j < |cs| && cs[j] !in r && t in r ==> cs[j].totalSpent <= t.totalSpent
    ensures forall v :: WithSpend(r, v) <= WithSpend(cs, v)
  {
    var s := SortBySpend(cs);
    var k := Min(5, |s|);
    assert s == s[..k] + s[k..];
    WithSpendAppend(s[..k], s[k..]);
    forall j, t | 0 <= j < |cs| && cs[j] !in s[..k] && t in s[..k] ensures cs[j].totalSpent <= t.totalSpent {
      LeftOutSpentLess(cs, s, k, cs[j], t);
    }
    s[..k]
  }

  lemma LeftOutSpentLess(cs: seq<Customer>, s: seq<Customer>, k: nat, c: Customer, t: Customer)
    requires SortedBySpend(s) && multiset(s) == multiset(cs) && k <= |s|
    requires c in cs && c !in s[..k] && t in s[..k]
    ensures c.totalSpent <= t.totalSpent
  {
    assert c in multiset(cs);
    assert c in s;
    var m :| 0 <= m < |s| && s[m] == c;
    var p :| 0 <= p < k && s[..k][p] == t;
  }

  datatype Metrics = Metrics(aov: int, totalTxns: nat, topCustomers: seq<Customer>)

  /** The average order value (revenue over transactions, rounded; 0 when there are
      none), the transaction count and the top spenders. */
  function AnalyticsMetrics(cs: seq<Customer>, totalRevenue: real): (m: Metrics)
    ensures m.totalTxns == TotalTxns(cs)
    ensures m.totalTxns == 0 ==> m.aov == 0
    ensures m.totalTxns > 0 ==>
      totalRevenue / m.totalTxns as real - 0.5 < m.aov as real <= totalRevenue / m.totalTxns as real + 0.5
    ensures m.topCustomers == TopCustomers(cs)
  {
    var txns := TotalTxns(cs);
    Metrics(if txns > 0 then Round(totalRevenue / txns as real) else 0, txns, TopCustomers(cs))
  }

  // ---------------------------------------------------------------------------
  // CSV export rows
  // ---------------------------------------------------------------------------

  /** Fields separated by commas, as a template literal writes them; no quoting. */
  function JoinFields(fields: seq<string>): string {
    if |fields| == 0 then ""
    else if |fields| == 1 then fields[0]
    else JoinFields(fields[..|fields| - 1]) + "," + fields[|fields| - 1]
  }

  /** One line of the export: the fields joined by commas and a line break. */
  function CsvLine(fields: seq<string>): string {
    JoinFields(fields) + "\n"
  }

  const CsvHeader: string := CsvLine(["Name", "Mobile", "TotalSpent", "Points", "SpendingTier", "PointsTier"])

  function TierName(t: Tier): string {
    match t
    case Bronze => "Bronze"
    case Silver => "Silver"
    case Gold => "Gold"
    case Platinum => "Platinum"
  }

  /** The fields of a customer's line. `amountText` is the runtime's number-to-text
      conversion, applied to the total spend. */
  function CsvFields(c: Customer, amountText: real -> string): (r: seq<string>)
    ensures |r| == 6
    ensures r[0] == c.name && r[1] == c.mobile && r[2] == amountText(c.totalSpent)
    ensures r[3] == IntToString(c.points) && r[4] == TierName(c.spendingTier) && r[5] == TierName(c.pointsTier)
  {
    [c.name, c.mobile, amountText(c.totalSpent), IntToString(c.points), TierName(c.spendingTier), TierName(c.pointsTier)]
  }

  function CsvRow(c: Customer, amountText: real -> string): string {
    CsvLine(CsvFields(c, amountText))
  }

  /** The rows after the header, one per customer in list order; each ends its line. */
  function CsvRows(cs: seq<Customer>, amountText: real -> string): (r: string)
    ensures |r| >= |cs|
    ensures |cs| > 0 ==> r[|r| - 1] == '\n'
  {
    if |cs| == 0 then "" else CsvRows(cs[..|cs| - 1], amountText) + CsvRow(cs[|cs| - 1], amountText)
  }

  /** Each step of the export appends the next customer's row, whatever text precedes
      the rows. */
  lemma CsvRowsStep(head: string, cs: seq<Customer>, i: int, amountText: real -> string)
    requires 0 <= i < |cs|
    ensures head + CsvRows(cs[..i + 1], amountText) == head + CsvRows(cs[..i], amountText) + CsvRow(cs[i], amountText)
  {
    assert cs[..i + 1][..i] == cs[..i];
    var rows := CsvRows(cs[..i], amountText);
    assert head + (rows + CsvRow(cs[i], amountText)) == head + rows + CsvRow(cs[i], amountText);
  }

  /** The export text: the header, then one row per customer in list order. */
  method BuildCsv(cs: seq<Customer>, amountText: real -> string) returns (csv: string)
    ensures csv == CsvHeader + CsvRows(cs, amountText)
  {
    csv := CsvHeader;
    var i := 0;
    while i < |cs|
      invariant 0 <= i <= |cs|
      invariant csv == CsvHeader + CsvRows(cs[..i], amountText)
    {
      var row := CsvRow(cs[i], amountText);
      CsvRowsStep(CsvHeader, cs, i, amountText);
      csv := csv + row;
      i := i + 1;
    }
    assert cs[..|cs|] == cs;
  }

  function CountNewlines(s: string): nat {
    if |s| == 0 then 0 else CountNewlines(s[..|s| - 1]) + (if s[|s| - 1] == '\n' then 1 else 0)
  }

  lemma {:induction false} CountNewlinesAppend(a: string, b: string)
    ensures CountNewlines(a + b) == CountNewlines(a) + CountNewlines(b)
  {
    if |b| > 0 {
      var b' := b[..|b| - 1];
      assert (a + b)[..|a + b| - 1] == a + b';
      CountNewlinesAppend(a, b');
    } else {
      assert a + b == a;
    }
  }

  ghost predicate NoNewline(s: string) { forall k :: 0 <= k < |s| ==> s[k] != '\n' }

  lemma {:induction false} NoNewlineCount(s: string)
    requires NoNewline(s)
    ensures CountNewlines(s) == 0
  {
    if |s| > 0 { NoNewlineCount(s[..|s| - 1]); }
  }

  /** Joining fields that hold no line break gives text with no line break. */
  lemma {:induction false} JoinFieldsNoNewline(fields: seq<string>)
    requires forall k :: 0 <= k < |fields| ==> NoNewline(fields[k])
    ensures CountNewlines(JoinFields(fields)) == 0
  {
    var n := |fields|;
    if n == 1 {
      NoNewlineCount(fields[0]);
    } else if n > 1 {
      var init := JoinFields(fields[..n - 1]);
      JoinFieldsNoNewline(fields[..n - 1]);
      CountNewlinesAppend(init, ",");
      CountNewlinesAppend(init + ",", fields[n - 1]);
      NoNewlineCount(fields[n - 1]);
    }
  }

  /** A line whose fields hold no line break is exactly one line. */
  lemma CsvLineIsOneLine(fields: seq<string>)
    requires forall k :: 0 <= k < |fields| ==> NoNewline(fields[k])
    ensures CountNewlines(CsvLine(fields)) == 1
  {
    JoinFieldsNoNewline(fields);
    CountNewlinesAppend(JoinFields(fields), "\n");
  }

  lemma IntToStringNoNewline(n: int)
    ensures NoNewline(IntToString(n))
  {
    var s := IntToString(n);
    if n >= 0 {
      assert AllDigits(s);
    } else {
      assert s == "-" + NatToString(-n);
      assert AllDigits(NatToString(-n));
      forall k | 0 <= k < |s| ensures s[k] != '\n' {
        if k > 0 { assert s[k] == NatToString(-n)[k - 1]; }
      }
    }
  }

  lemma TierNameNoNewline(t: Tier)
    ensures NoNewline(TierName(t))
  {
  }

  lemma SixFields(a: string, b: string, c: string, d: string, e: string, f: string)
    requires NoNewline(a) && NoNewline(b) && NoNewline(c) && NoNewline(d) && NoNewline(e) && NoNewline(f)
    ensures CountNewlines(CsvLine([a, b, c, d, e, f])) == 1
  {
    var fields := [a, b, c, d, e, f];
    forall k | 0 <= k < 6 ensures NoNewline(fields[k]) {
    }
    CsvLineIsOneLine(fields);
  }

  lemma HeaderIsOneLine()
    ensures CountNewlines(CsvHeader) == 1
  {
    assert NoNewline("Name") && NoNewline("Mobile") && NoNewline("TotalSpent");
    assert NoNewline("Points") && NoNewline("SpendingTier") && NoNewline("PointsTier");
    SixFields("Name", "Mobile", "TotalSpent", "Points", "SpendingTier", "PointsTier");
  }

  /** When no name, mobile number or amount text contains a line break, the export has
      exactly one line per customer after the header line. */
  lemma CsvLineCount(cs: seq<Customer>, amountText: real -> string)
    requires forall j :: 0 <= j < |cs| ==> NoNewline(cs[j].name) && NoNewline(cs[j].mobile)
    requires forall x :: NoNewline(amountText(x))
    ensures CountNewlines(CsvHeader + CsvRows(cs, amountText)) == |cs| + 1
  {
    CountNewlinesAppend(CsvHeader, CsvRows(cs, amountText));
    HeaderIsOneLine();
    RowsLines(cs, amountText);
  }

  lemma {:induction false} RowsLines(cs: seq<Customer>, amountText: real -> string)
    requires forall j :: 0 <= j < |cs| ==> NoNewline(cs[j].name) && NoNewline(cs[j].mobile)
    requires forall x :: NoNewline(amountText(x))
    ensures CountNewlines(CsvRows(cs, amountText)) == |cs|
  {
    if |cs| > 0 {
      var init := cs[..|cs| - 1];
      var c := cs[|cs| - 1];
      RowsLines(init, amountText);
      IntToStringNoNewline(c.points);
      TierNameNoNewline(c.spendingTier);
      TierNameNoNewline(c.pointsTier);
      SixFields(c.name, c.mobile, amountText(c.totalSpent), IntToString(c.points), TierName(c.spendingTier), TierName(c.pointsTier));
      CountNewlinesAppend(CsvRows(init, amountText), CsvRow(c, amountText));
    }
  }
}
