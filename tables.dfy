/**
 * The rows of the backend tables that the services touch (orders, profiles,
 * activity_log, notifications, hosting_accounts), the `subscription_plan`
 * enumeration, JSON values for update records, and the backend itself as an
 * object whose tables the services update in place.
 */
module Tables {
  import opened Common

  /** The `subscription_plan` database enumeration. */
  datatype Plan = Free | Starter | Business | Enterprise

  function PlanName(p: Plan): string {
    match p
    case Free => "free"
    case Starter => "starter"
    case Business => "business"
    case Enterprise => "enterprise"
  }

  /** The database's check that a text value belongs to the enumeration. */
  function ParsePlan(s: string): (r: Option<Plan>)
    ensures r.Some? ==> PlanName(r.value) == s
    ensures r.None? ==> s !in {"free", "starter", "business", "enterprise"}
  {
    if s == "free" then Some(Free)
    else if s == "starter" then Some(Starter)
    else if s == "business" then Some(Business)
    else if s == "enterprise" then Some(Enterprise)
    else None
  }

  /** Every plan name parses back to its plan, so the names are pairwise distinct. */
  lemma ParsePlanName(p: Plan)
    ensures ParsePlan(PlanName(p)) == Some(p)
  {
  }

  /** A JSON value in an update or insert record. */
  datatype Value = Str(s: string) | Bool(b: bool) | Num(n: int) | Null

  type Record = map<string, Value>

  /** A row of `orders`. */
  datatype OrderRow = OrderRow(
    id: string,
    userId: string,
    plan: Plan,
    amountCents: int,
    currency: Option<string>,
    status: Option<string>,
    billingCycle: Option<string>,
    paymentIntentId: Option<string>,   // stripe_payment_intent_id, also used for the PayU txnid
    createdAt: Option<string>,
    paidAt: Option<string>)

  /** A row of `activity_log`; `details` holds the plan and the provider's payment id. */
  datatype ActivityRow = ActivityRow(userId: string, action: string, detailsPlan: Plan, detailsPaymentId: Option<string>)

  /** A row of `notifications`. */
  datatype NotificationRow = NotificationRow(userId: string, kind: string, title: string, message: string)

  /** A row of `hosting_accounts`. */
  datatype HostingRow = HostingRow(
    id: string,
    name: string,
    domain: Option<string>,
    plan: Option<Plan>,
    isActive: Option<bool>,
    storageUsedGb: Option<int>,
    bandwidthUsedGb: Option<int>,
    serverLocation: Option<string>,
    ownerId: string,
    createdAt: Option<string>,
    updatedAt: Option<string>)

  /** The text column `key` after an update record is applied: set when present, cleared by null. */
  function TextColumn(old_: Option<string>, rec: Record, key: string): (r: Option<string>)
    ensures key !in rec ==> r == old_
    ensures key in rec && rec[key].Str? ==> r == Some(rec[key].s)
    ensures key in rec && rec[key].Null? ==> r == None
  {
    if key !in rec then old_
    else match rec[key]
      case Str(s) => Some(s)
      case Null => None
      case _ => old_
  }

  /** An `update(record)` on one `orders` row: only the columns named in the record change. */
  function ApplyOrderUpdate(row: OrderRow, rec: Record): (r: OrderRow)
    ensures r.id == row.id && r.userId == row.userId && r.plan == row.plan
    ensures r.amountCents == row.amountCents && r.currency == row.currency
    ensures r.billingCycle == row.billingCycle && r.createdAt == row.createdAt
  {
    row.(status := TextColumn(row.status, rec, "status"),
         paidAt := TextColumn(row.paidAt, rec, "paid_at"),
         paymentIntentId := TextColumn(row.paymentIntentId, rec, "stripe_payment_intent_id"))
  }

  /** The error PostgreSQL reports when an insert reuses the primary key of `table`. */
  function DuplicateKey(table: string): string {
    "duplicate key value violates unique constraint \"" + table + "_pkey\""
  }

  /** A snapshot of the backend's tables. `profiles` maps a user id to its subscription plan. */
  datatype DbState = DbState(
    orders: map<string, OrderRow>,
    profiles: map<string, Option<Plan>>,
    activityLog: seq<ActivityRow>,
    notifications: seq<NotificationRow>,
    hosting: map<string, HostingRow>)

  /** The backend: each table is a field that the services' calls replace. */
  class Backend {
    var orders: map<string, OrderRow>
    var profiles: map<string, Option<Plan>>
    var activityLog: seq<ActivityRow>
    var notifications: seq<NotificationRow>
    var hosting: map<string, HostingRow>

    constructor (s: DbState)
      ensures Snapshot() == s
    {
      orders, profiles := s.orders, s.profiles;
      activityLog, notifications := s.activityLog, s.notifications;
      hosting := s.hosting;
    }

    function Snapshot(): DbState
      reads this
    {
      DbState(orders, profiles, activityLog, notifications, hosting)
    }
  }
}
