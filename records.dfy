/** Entities of the backend's relational schema (users, plans, subscriptions,
    payments, chat messages, usage logs), the outcome type every endpoint
    returns, and the constants the routers share.

    Prices and payment amounts are integers in minor units (paise, cents);
    timestamps are integers in seconds. */
module Records {

  datatype Option<+T> = None | Some(value: T) {
    function GetOr(default: T): T {
      match this
      case Some(v) => v
      case None => default
    }
  }

  /** An endpoint either answers or raises an HTTP error with a status code. */
  datatype Result<+T> = Ok(value: T) | Err(code: int)

  const BadRequest := 400
  const Unauthorized := 401
  const PaymentRequired := 402
  const NotFound := 404
  const ServerError := 500

  const SecondsPerDay := 86400
  /** A purchased or registration-granted subscription lasts 30 days. */
  const PaidPeriodDays := 30
  /** A seeded subscription lasts 365 days. */
  const SeedPeriodDays := 365

  const INR: string := "INR"
  const USD: string := "USD"
  const AdminRole: string := "admin"
  const UserRole: string := "user"

  /** Column defaults: a plan's currency and activity flag. */
  const DefaultCurrency: string := INR
  const DefaultIsActive := true

  type Email = string

  datatype User = User(
    id: int,
    email: Email,
    hashedPassword: string,
    role: string,
    createdAt: int)

  datatype Plan = Plan(
    id: int,
    name: string,
    description: Option<string>,
    price: int,
    currency: string,
    tokensPerMonth: int,
    isActive: bool,
    createdAt: int)

  datatype SubStatus = Active | Expired | Cancelled

  datatype Subscription = Subscription(
    id: int,
    userId: int,
    planId: int,
    status: SubStatus,
    startDate: int,
    endDate: Option<int>,
    usedTokens: int)

  datatype Gateway = Razorpay | Stripe

  datatype PaymentStatus = Pending | Created | Success

  datatype Payment = Payment(
    id: int,
    userId: int,
    planId: int,
    gateway: Gateway,
    amount: int,
    currency: string,
    status: PaymentStatus,
    transactionId: Option<string>,
    invoiceFilename: Option<string>,
    createdAt: int)

  datatype ChatMessage = ChatMessage(
    id: int,
    userId: int,
    role: string,
    content: string,
    createdAt: int)

  datatype UsageLog = UsageLog(
    id: int,
    userId: int,
    tokensUsed: int,
    createdAt: int)

  predicate IsActiveOf(s: Subscription, userId: int) {
    s.userId == userId && s.status == Active
  }

  /** A fresh active subscription with no tokens used, starting at `start`
      and lasting `days` days. */
  function NewSubscription(id: int, userId: int, planId: int, start: int, days: int): Subscription {
    Subscription(id, userId, planId, Active, start, Some(PeriodEnd(start, days)), 0)
  }

  /** The end of a period of `days` days that starts at `start`. */
  function PeriodEnd(start: int, days: int): int {
    start + days * SecondsPerDay
  }
}
