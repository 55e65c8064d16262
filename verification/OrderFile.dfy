/** The rows that reference one order: the order itself, its payment, refunds, payouts,
    dispute, deliveries and timeline events. Ledger entries live in the global ledger. */
module OrderFile {
  import opened Core
  import opened Ledger
  import opened Money

  datatype OrderStatus =
    | AwaitingPayment
    | Active
    | Delivered
    | RevisionRequested
    | Completed
    | Disputed
    | Cancelled

  datatype PaymentStatus =
    | Pending
    | RequiresAction
    | Processing
    | Succeeded
    | Failed
    | Canceled
    | Refunded
    | PartiallyRefunded

  datatype RefundStatus = RefundPending | RefundSucceeded | RefundFailed

  datatype PayoutStatus = Scheduled | InTransit | Paid | PayoutFailed | Reversed

  datatype DisputeStatus = Open | UnderReview | AwaitingResponse | Resolved | Closed

  datatype Outcome = RefundFull | RefundPartial | ReleaseExpert | Split | NoFaultClose

  datatype DeliveryStatus = Submitted | Approved | SentBack

  datatype Gateway = Manual | Stripe

  datatype Order = Order(
    request: nat,
    student: UserId,
    expert: UserId,
    amount: int,
    currency: string,
    commissionRate: int,
    commissionAmount: int,
    expertAmount: int,
    status: OrderStatus,
    revisionsAllowed: nat,
    revisionsUsed: nat,
    createdAt: Time,
    paidAt: Option<Time>,
    deliveredAt: Option<Time>,
    completedAt: Option<Time>,
    cancelledAt: Option<Time>,
    autoApproveAt: Option<Time>,
    hasOpenDispute: bool)

  /** provider_reference is a fresh unique token per attempt: the pair (order, attempt). */
  datatype Reference = Reference(order: OrderId, attempt: nat)

  datatype Payment = Payment(
    gateway: Gateway,
    reference: Reference,
    amountMinor: int,
    currency: string,
    status: PaymentStatus,
    refundedMinor: int,
    paidAt: Option<Time>)

  datatype RefundRow = RefundRow(amountMinor: int, status: RefundStatus)

  datatype PayoutRow = PayoutRow(expert: UserId, amountMinor: int, status: PayoutStatus)

  datatype Dispute = Dispute(
    openedBy: UserId,
    priorStatus: OrderStatus,
    status: DisputeStatus,
    outcome: Option<Outcome>)

  datatype Delivery = Delivery(
    revisionNumber: nat,
    status: DeliveryStatus,
    submittedAt: Time,
    approvedAt: Option<Time>)

  datatype Marker = DeadlineReminded | AutoApproveWarned | OverdueFlagged | DeadlineProposed | DeadlineExtended

  datatype Event =
    | Created
    | PaymentConfirmed
    | WorkDelivered
    | RevisionAsked
    | Redelivered
    | DeliveryApproved
    | AutoApproved
    | OrderCompleted
    | OrderCancelled
    | DisputeOpened
    | DisputeResolved(outcome: Outcome)
    | Marked(marker: Marker)

  datatype File = File(
    id: OrderId,
    order: Order,
    payment: Option<Payment>,
    attempts: nat,
    refunds: seq<RefundRow>,
    payouts: seq<PayoutRow>,
    dispute: Option<Dispute>,
    deliveries: seq<Delivery>,
    events: seq<Event>)

  const AUTO_APPROVE: Time := 72 * HOUR
  const UNPAID_CANCEL: Time := 72 * HOUR
  const MIN_DELIVERY_SUMMARY := 20
  const MIN_REVISION_NOTE := 10
  const MIN_DISPUTE_TEXT := 20
  const DEFAULT_REVISIONS := 2

  /** What create_order_for_request stores; the rate is the acquisition source's. */
  function NewFile(id: OrderId, request: nat, student: UserId, expert: UserId,
                   amount: int, currency: string, rate: int, now: Time): File
  {
    var (commission, net) := CommissionSplit(amount, rate);
    File(id,
         Order(request, student, expert, amount, currency, DEFAULT_RATE, commission, net,
               AwaitingPayment, DEFAULT_REVISIONS, 0, now, None, None, None, None, None, false),
         None, 0, [], [], None, [], [Created])
  }

  /** The order transition table. */
  predicate Allowed(from: OrderStatus, to: OrderStatus) {
    match from
    case AwaitingPayment => to in {Active, Cancelled}
    case Active => to in {Delivered, Cancelled, Disputed}
    case Delivered => to in {RevisionRequested, Completed, Cancelled, Disputed}
    case RevisionRequested => to in {Delivered, Completed, Disputed, Cancelled}
    case Completed => to == Disputed
    case Disputed => to in {Completed, Cancelled, Active, Delivered, RevisionRequested}
    case Cancelled => false
  }

  /** Sum of the refund rows' amounts. */
  function RefundSum(rows: seq<RefundRow>): int {
    if rows == [] then 0 else RefundSum(rows[..|rows| - 1]) + rows[|rows| - 1].amountMinor
  }

  /** `order_by("-revision_number").first()`. */
  function Latest(ds: seq<Delivery>): (k: nat)
    requires ds != []
    ensures k < |ds|
    ensures forall j :: 0 <= j < |ds| ==> ds[j].revisionNumber <= ds[k].revisionNumber
  {
    var n := |ds| - 1;
    if n == 0 then 0
    else
      var k := Latest(ds[..n]);
      assert forall j :: 0 <= j < n ==> ds[..n][j] == ds[j];
      if ds[n].revisionNumber >= ds[k].revisionNumber then n else k
  }

  /** `exclude(status=PAID).first()`. */
  function FirstUnpaid(ps: seq<PayoutRow>): (k: nat)
    ensures k <= |ps|
    ensures forall j :: 0 <= j < k ==> ps[j].status == Paid
    ensures k < |ps| ==> ps[k].status != Paid
  {
    if ps == [] then 0
    else if ps[0].status != Paid then 0
    else
      var k := FirstUnpaid(ps[1..]);
      assert forall j :: 1 <= j < k + 1 ==> ps[j] == ps[1..][j - 1];
      k + 1
  }
}
