/** The spend breakdown of the analytics pie chart (components/AnalyticsCharts.tsx):
    customers counted into three buckets by total spend. */
module Charts {
  import opened Types

  datatype Bucket = High | Mid | Low

  /** Above 10000 is a VIP, above 2000 a regular, and anyone else new. */
  function BucketOf(totalSpent: real): (b: Bucket)
    ensures b == High <==> totalSpent > 10000.0
    ensures b == Mid <==> 2000.0 < totalSpent <= 10000.0
    ensures b == Low <==> totalSpent <= 2000.0
  {
    if totalSpent > 10000.0 then High
    else if totalSpent > 2000.0 then Mid
    else Low
  }

  /** How many customers fall into a bucket. */
  function CountIn(cs: seq<Customer>, b: Bucket): (n: nat)
    ensures n <= |cs|
  {
    if |cs| == 0 then 0
    else CountIn(cs[..|cs| - 1], b) + (if BucketOf(cs[|cs| - 1].totalSpent) == b then 1 else 0)
  }

  /** Every customer is in exactly one bucket. */
  lemma {:induction false} BucketsPartition(cs: seq<Customer>)
    ensures CountIn(cs, High) + CountIn(cs, Mid) + CountIn(cs, Low) == |cs|
  {
    if |cs| > 0 {
      BucketsPartition(cs[..|cs| - 1]);
    }
  }

  /** A customer who spent nothing at all is counted as new. */
  lemma ZeroSpendIsLow()
    ensures BucketOf(0.0) == Low
  {
  }

  /** One slice of the pie: its label and its count. */
  datatype Slice = Slice(name: string, value: nat)

  const VipLabel := "VIP (>10k)"
  const RegularLabel := "Regular (>2k)"
  const NewLabel := "New (<2k)"

  /** `pieChartData`: one pass over the customers incrementing one counter each, then
      the three slices in the fixed order VIP, Regular, New. */
  method PieChartData(cs: seq<Customer>) returns (data: seq<Slice>)
    ensures |data| == 3
    ensures data[0] == Slice(VipLabel, CountIn(cs, High))
    ensures data[1] == Slice(RegularLabel, CountIn(cs, Mid))
    ensures data[2] == Slice(NewLabel, CountIn(cs, Low))
    ensures data[0].value + data[1].value + data[2].value == |cs|
  {
    var low, mid, high := 0, 0, 0;
    var k := 0;
    while k < |cs|
      invariant 0 <= k <= |cs|
      invariant high == CountIn(cs[..k], High)
      invariant mid == CountIn(cs[..k], Mid)
      invariant low == CountIn(cs[..k], Low)
    {
      assert cs[..k + 1][..k] == cs[..k];
      if cs[k].totalSpent > 10000.0 {
        high := high + 1;
      } else if cs[k].totalSpent > 2000.0 {
        mid := mid + 1;
      } else {
        low := low + 1;
      }
      k := k + 1;
    }
    assert cs[..k] == cs;
    BucketsPartition(cs);
    data := [Slice(VipLabel, high), Slice(RegularLabel, mid), Slice(NewLabel, low)];
  }
}
