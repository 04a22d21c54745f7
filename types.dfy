/** The records of the loyalty ledger: tiers, the per-tier settings tables,
    customers with their purchase history, and the SMS audit log. */
module Types {

  datatype Option<T> = None | Some(value: T)

  /** The four loyalty tiers, ordered Bronze < Silver < Gold < Platinum. */
  datatype Tier = Bronze | Silver | Gold | Platinum

  /** A value per tier; the settings hold three such tables. */
  datatype Table<T> = Table(platinum: T, gold: T, silver: T, bronze: T)
  {
    function Get(t: Tier): T {
      match t
      case Platinum => platinum
      case Gold => gold
      case Silver => silver
      case Bronze => bronze
    }

    function Set(t: Tier, v: T): (r: Table<T>)
      ensures r.Get(t) == v
      ensures forall u :: u != t ==> r.Get(u) == Get(u)
    {
      match t
      case Platinum => this.(platinum := v)
      case Gold => this.(gold := v)
      case Silver => this.(silver := v)
      case Bronze => this.(bronze := v)
    }

    /** The table with `f` applied to every entry. */
    function Map<U>(f: T -> U): (r: Table<U>)
      ensures forall u :: r.Get(u) == f(Get(u))
    {
      Table(f(platinum), f(gold), f(silver), f(bronze))
    }
  }

  /** The smaller and the larger of two naturals (`Math.min`, `Math.max`). */
  function Min(a: nat, b: nat): nat { if a <= b then a else b }

  function Max(a: nat, b: nat): nat { if a >= b then a else b }

  /** The smaller and the larger of two amounts. */
  function MinReal(a: real, b: real): real { if a <= b then a else b }

  function MaxReal(a: real, b: real): real { if a >= b then a else b }

  /** Minimum total spend per tier, minimum points per tier, discount percent per tier. */
  datatype Settings = Settings(spendingTiers: Table<int>, pointsTiers: Table<int>, discounts: Table<int>)

  datatype EntryKind = Earn | Redeem

  /** One settled purchase: the amount charged after discounts, the signed point change,
      and the total discount given. The date is an opaque timestamp. */
  datatype HistoryEntry = HistoryEntry(date: int, bill: real, points: int, kind: EntryKind, discountApplied: real)

  datatype Customer = Customer(
    mobile: string,
    name: string,
    pin: string,
    points: int,
    totalSpent: real,
    history: seq<HistoryEntry>,
    spendingTier: Tier,
    pointsTier: Tier)

  /** The text of an SMS, kept as the values it is built from. */
  datatype Notice =
    | Welcome(name: string, firstPoints: int)
    | Receipt(name: string, charged: real, newBalance: int)

  datatype SmsStatus = Sent | Failed

  datatype SmsLog = SmsLog(date: int, recipientName: string, recipientMobile: string, message: Notice, status: SmsStatus)
}
