/** The service calls as they run: one transaction holds the rows of one order and assigns
    them step by step. Every method is proved to leave exactly what OrderSteps specifies. */
module Sessions {
  import opened Core
  import opened Ledger
  import opened Money
  import opened Allocation
  import opened Binary64
  import opened OrderFile
  import opened OrderSteps
  import opened OrderBooks

  /** What the loop gives a refund of two weights, by the division it runs on. */
  lemma SplitParts(amount: int, first: int, second: int, divide: Division, parts: seq<int>)
    requires amount > 0 && first >= 0 && second >= 0 && first + second > 0
    requires Allocatable(amount, [first, second]) && IsAllocation(amount, [first, second], divide, parts)
    ensures |parts| == 2
    ensures IsBinary64Division(divide) && amount < TWO53 ==> parts[0] + parts[1] == amount
    ensures divide == ExactQuotient || (IsBinary64Division(divide) && Fits(2, amount, [first, second])) ==>
              parts[0] == RoundHalfUp(amount * first, first + second) && parts[1] == amount - parts[0]
  {
    assert parts == [parts[0], parts[1]];
    SumPair(parts[0], parts[1]);
    if IsBinary64Division(divide) && amount < TWO53 {
      FloatSumsExactly(amount, [first, second], divide, parts);
    }
    if divide == ExactQuotient {
      ExactAllocationIsLargestRemainder(amount, [first, second], parts);
      TwoWayIsRoundHalfUp(amount, first, second, parts);
    } else if IsBinary64Division(divide) && Fits(2, amount, [first, second]) {
      FloatTwoWayIsRoundHalfUp(amount, first, second, divide, parts);
    }
  }

  class Session {
    const id: OrderId
    /** The order's ledger entries when the transaction began. */
    const booked: seq<Entry>

    var order: Order
    var payment: Option<Payment>
    var attempts: nat
    var refunds: seq<RefundRow>
    var payouts: seq<PayoutRow>
    var dispute: Option<Dispute>
    var deliveries: seq<Delivery>
    var events: seq<Event>
    var posted: seq<Entry>

    constructor (f: File, entries: seq<Entry>)
      ensures Rows() == f && booked == entries && posted == []
    {
      id, booked := f.id, entries;
      order, payment, attempts := f.order, f.payment, f.attempts;
      refunds, payouts, dispute := f.refunds, f.payouts, f.dispute;
      deliveries, events, posted := f.deliveries, f.events, [];
    }

    function Rows(): File
      reads this
    {
      File(id, order, payment, attempts, refunds, payouts, dispute, deliveries, events)
    }

    function Outcome(error: Option<Error>): Step
      reads this
    {
      Step(Rows(), posted, error)
    }

    /** The transaction rolls back to the rows it started from. */
    method Rollback(f: File)
      requires f.id == id
      modifies this
      ensures Rows() == f && posted == []
    {
      order, payment, attempts := f.order, f.payment, f.attempts;
      refunds, payouts, dispute := f.refunds, f.payouts, f.dispute;
      deliveries, events, posted := f.deliveries, f.events, [];
    }

    method RecordEvent(event: Event)
      modifies `events
      ensures Rows() == Record(old(Rows()), event)
    {
      events := events + [event];
    }

    method Post(kind: Kind, amount: int, user: Option<UserId>)
      modifies `posted
      ensures posted == old(posted) + [Entry(kind, amount, id, user)]
    {
      posted := posted + [Entry(kind, amount, id, user)];
    }

    /** orders.transition. */
    method Transition(to: OrderStatus, event: Event) returns (ok: bool)
      modifies `order, `events
      ensures ok == Moved(old(Rows()), to, event).Some?
      ensures Rows() == if ok then Moved(old(Rows()), to, event).value else old(Rows())
    {
      if !Allowed(order.status, to) {
        return false;
      }
      order := order.(status := to);
      RecordEvent(event);
      return true;
    }

    // --- payment -------------------------------------------------------------------------

    method CreatePaymentRow(gateway: Gateway)
      modifies `payment, `attempts
      ensures Rows() == Armed(old(Rows()), gateway)
    {
      payment := Some(Payment(gateway, Reference(id, attempts), order.amount, order.currency, Pending, 0, None));
      attempts := attempts + 1;
    }

    method Start(actor: Actor, gateway: Gateway) returns (error: Option<Error>)
      requires posted == []
      modifies this
      ensures Outcome(error) == StartPayment(old(Rows()), actor, gateway)
    {
      if order.student != actor.id {
        return Some(PermissionDenied);
      }
      if order.status != AwaitingPayment {
        return Some(InvalidTransition);
      }
      if payment.None? {
        CreatePaymentRow(gateway);
      }
      if payment.value.status == Succeeded {
        return Some(DuplicatePayment);
      }
      if payment.value.status == Pending {
        return None;
      }
      var p := payment.value.(gateway := gateway, status := Pending);
      p := p.(amountMinor := order.amount, currency := order.currency, reference := Reference(id, attempts));
      payment, attempts := Some(p), attempts + 1;
      return None;
    }

    /** The receiver of the payment_confirmed signal. */
    method Activate(now: Time) returns (ok: bool)
      modifies `order, `events
      ensures ok == MarkPaid(old(Rows()), now).Some?
      ensures ok ==> Rows() == MarkPaid(old(Rows()), now).value
    {
      if order.paidAt.Some? {
        return false;
      }
      order := order.(paidAt := Some(now));
      ok := Transition(Active, PaymentConfirmed);
      if ok {
        RecordEvent(PaymentConfirmed);
      }
    }

    /** A rejected attempt is recorded in a transaction of its own. */
    method MarkAttemptFailed()
      requires payment.Some?
      modifies `payment
      ensures payment == Some(old(payment).value.(status := if OpenAttempt(old(payment).value.status)
                                                            then Failed else old(payment).value.status))
      ensures !OpenAttempt(payment.value.status)
    {
      if OpenAttempt(payment.value.status) {
        payment := Some(payment.value.(status := Failed));
      }
    }

    method Confirm(accepted: bool, now: Time) returns (error: Option<Error>)
      requires posted == []
      modifies this
      ensures Outcome(error) == ConfirmPayment(old(Rows()), accepted, now)
    {
      if payment.None? {
        return Some(NotFound);
      }
      var saved, p := Rows(), payment.value;
      if p.status == Succeeded {
        return Some(DuplicatePayment);
      }
      if p.status == Canceled || p.status == Refunded {
        return Some(InvalidTransition);
      }
      if order.status != AwaitingPayment {
        return Some(InvalidTransition);
      }
      if p.amountMinor != order.amount || p.currency != order.currency {
        return Some(AmountMismatch);
      }
      if !accepted {
        MarkAttemptFailed();
        return Some(PaymentFailed);
      }
      payment := Some(p.(status := Succeeded, paidAt := Some(now)));
      var (commission, net) := if order.commissionAmount == 0 then CommissionSplit(p.amountMinor, order.commissionRate)
                               else (order.commissionAmount, order.expertAmount);
      Post(Charge, p.amountMinor, Some(order.student));
      Post(Commission, commission, None);
      Post(ExpertCredit, net, Some(order.expert));
      var ok := Activate(now);
      if !ok {
        Rollback(saved);
        return Some(InvalidTransition);
      }
      return None;
    }

    method ConfirmOrder(gateway: Gateway, accepted: bool, now: Time) returns (error: Option<Error>)
      requires posted == []
      modifies this
      ensures Outcome(error) == ConfirmOrderPayment(old(Rows()), gateway, accepted, now)
    {
      if gateway != Manual {
        return Some(FeatureDisabled);
      }
      if payment.None? {
        CreatePaymentRow(gateway);
      } else if payment.value.status == Succeeded {
        return Some(DuplicatePayment);
      }
      error := Confirm(accepted, now);
    }

    method Void()
      modifies `payment
      ensures Rows() == VoidPayment(old(Rows()))
    {
      if payment.Some? && OpenAttempt(payment.value.status) {
        payment := Some(payment.value.(status := Canceled));
      }
    }

    // --- webhook handlers -------------------------------------------------------------------

    method HandlePaymentSucceeded(accepted: bool, now: Time) returns (error: Option<Error>)
      requires posted == []
      modifies this
      ensures Outcome(error) == PaymentSucceededEvent(old(Rows()), accepted, now)
    {
      if payment.Some? && payment.value.status == Succeeded {
        return None;
      }
      error := Confirm(accepted, now);
    }

    method HandlePaymentFailed()
      requires posted == []
      modifies `payment
      ensures Outcome(None) == PaymentFailedEvent(old(Rows()))
    {
      if payment.None? || payment.value.status in {Succeeded, Canceled} {
        return;
      }
      payment := Some(payment.value.(status := Failed));
    }

    method HandleRefundSucceeded(k: nat)
      requires posted == []
      modifies `refunds
      ensures Outcome(None) == RefundSucceededEvent(old(Rows()), k)
    {
      if k >= |refunds| || refunds[k].status == RefundSucceeded {
        return;
      }
      refunds := refunds[k := refunds[k].(status := RefundSucceeded)];
    }

    // --- delivery loop ------------------------------------------------------------------------

    method Submit(actor: Actor, summaryLength: nat, attachmentsOwned: bool, now: Time) returns (error: Option<Error>)
      requires posted == []
      modifies this
      ensures Outcome(error) == SubmitDelivery(old(Rows()), actor, summaryLength, attachmentsOwned, now)
    {
      if order.expert != actor.id {
        return Some(PermissionDenied);
      }
      if order.status !in {Active, RevisionRequested} {
        return Some(OrderLocked);
      }
      if summaryLength < MIN_DELIVERY_SUMMARY || !attachmentsOwned {
        return Some(ValidationError);
      }
      var number := if order.status == RevisionRequested then order.revisionsUsed else 0;
      if exists d <- deliveries :: d.revisionNumber == number {
        return Some(IntegrityError);
      }
      deliveries := deliveries + [Delivery(number, Submitted, now, None)];
      order := order.(deliveredAt := Some(now));
      order := order.(autoApproveAt := Some(now + AUTO_APPROVE));
      var ok := Transition(Delivered, if number != 0 then Redelivered else WorkDelivered);
      return None;
    }

    method Revise(actor: Actor, noteLength: nat) returns (error: Option<Error>)
      requires posted == []
      modifies this
      ensures Outcome(error) == RequestRevision(old(Rows()), actor, noteLength)
    {
      if order.student != actor.id {
        return Some(PermissionDenied);
      }
      if order.status != Delivered {
        return Some(OrderLocked);
      }
      if order.revisionsUsed >= order.revisionsAllowed {
        return Some(RevisionsExhausted);
      }
      if noteLength < MIN_REVISION_NOTE {
        return Some(ValidationError);
      }
      if deliveries == [] {
        return Some(OrderLocked);
      }
      var k := Latest(deliveries);
      deliveries := deliveries[k := deliveries[k].(status := SentBack)];
      order := order.(revisionsUsed := order.revisionsUsed + 1);
      order := order.(autoApproveAt := None);
      var ok := Transition(RevisionRequested, RevisionAsked);
      RecordEvent(RevisionAsked);
      return None;
    }

    /** payments.schedule_payout once the order is completed. */
    method Schedule(floor: int) returns (error: Option<Error>)
      requires posted == []
      modifies `payouts
      ensures Outcome(error) == SchedulePayout(old(Rows()), booked, floor)
    {
      if order.status != Completed {
        return Some(InvalidTransition);
      }
      if payouts != [] || order.hasOpenDispute {
        return None;
      }
      var amount := Total(booked, ExpertCredit);
      if amount < floor {
        return None;
      }
      payouts := [PayoutRow(order.expert, amount, Scheduled)];
      return None;
    }

    method Approve(approver: Approver, floor: int, now: Time) returns (error: Option<Error>)
      requires posted == []
      modifies this
      ensures Outcome(error) == ApproveDelivery(old(Rows()), booked, approver, floor, now)
    {
      if approver.ByStudent? && order.student != approver.actor.id {
        return Some(PermissionDenied);
      }
      if approver.ByAdmin? && !IsStaff(approver.staff) {
        return Some(PermissionDenied);
      }
      if order.status != Delivered {
        return Some(OrderLocked);
      }
      if deliveries != [] {
        var k := Latest(deliveries);
        deliveries := deliveries[k := deliveries[k].(status := Approved, approvedAt := Some(now))];
      }
      order := order.(completedAt := Some(now));
      order := order.(autoApproveAt := None);
      var ok := Transition(Completed, if approver.ByWorker? then AutoApproved else DeliveryApproved);
      RecordEvent(OrderCompleted);
      error := Schedule(floor);
    }

    // --- cancellation ---------------------------------------------------------------------------

    method CancelOrder(actor: Actor, reasonGiven: bool, now: Time) returns (error: Option<Error>)
      requires posted == []
      modifies this
      ensures Outcome(error) == Cancel(old(Rows()), actor, reasonGiven, now)
    {
      if order.student != actor.id && order.expert != actor.id && !actor.staff {
        return Some(PermissionDenied);
      }
      if order.status != AwaitingPayment && !actor.staff {
        return Some(PermissionDenied);
      }
      if !reasonGiven {
        return Some(ValidationError);
      }
      var saved := Rows();
      order := order.(cancelledAt := Some(now));
      var ok := Transition(Cancelled, OrderCancelled);
      if !ok {
        Rollback(saved);
        return Some(InvalidTransition);
      }
      Void();
      return None;
    }

    method SweepOne(now: Time) returns (error: Option<Error>)
      requires posted == []
      modifies this
      ensures Outcome(error) == SweepUnpaid(old(Rows()), now)
    {
      if order.status != AwaitingPayment || now < order.createdAt + UNPAID_CANCEL {
        return None;
      }
      order := order.(cancelledAt := Some(now));
      var ok := Transition(Cancelled, OrderCancelled);
      return None;
    }

    // --- refunds and payouts -----------------------------------------------------------------------

    /** The two parts of a refund, from the largest-remainder loop over quotients computed by
        `divide`. They sum to the amount; exact division and - within 2^53 - binary64 division
        both give the commission its share rounded half up. */
    method SplitRefund(amount: int, divide: Division) returns (r: Result<(int, int), Error>)
      requires amount > 0
      ensures var c, e := NonNegative(order.commissionAmount), NonNegative(order.expertAmount);
              && (r.Failure? <==> c + e == 0) && (r.Failure? ==> r.error == ValueError)
              && (r.Success? && IsBinary64Division(divide) && amount < TWO53 ==> r.value.0 + r.value.1 == amount)
              && (r.Success? && (divide == ExactQuotient || (IsBinary64Division(divide) && Fits(2, amount, [c, e]))) ==>
                    r.value == (ReversedCommission(order, amount), amount - ReversedCommission(order, amount)))
    {
      var commission, credit := NonNegative(order.commissionAmount), NonNegative(order.expertAmount);
      SumPair(commission, credit);
      var parts := Allocate(amount, [commission, credit], divide);
      if parts.Failure? {
        return Failure(parts.error);
      }
      SplitParts(amount, commission, credit, divide, parts.value);
      return Success((parts.value[0], parts.value[1]));
    }

    method SplitExactly(amount: int) returns (r: Result<(int, int), Error>)
      requires amount > 0
      ensures if NonNegative(order.commissionAmount) + NonNegative(order.expertAmount) == 0
              then r == Failure(ValueError)
              else r == Success((ReversedCommission(order, amount), amount - ReversedCommission(order, amount)))
    {
      r := SplitRefund(amount, ExactQuotient);
    }

    method Refund(actor: Option<Actor>, amount: int, reasonKnown: bool) returns (error: Option<Error>)
      requires posted == []
      modifies `payment, `refunds, `posted
      ensures Outcome(error) == IssueRefund(old(Rows()), actor, amount, reasonKnown)
    {
      if !IsStaff(actor) {
        return Some(PermissionDenied);
      }
      if payment.None? {
        return Some(NotFound);
      }
      var p := payment.value;
      if p.status !in {Succeeded, PartiallyRefunded} {
        return Some(InvalidTransition);
      }
      var refundable := p.amountMinor - p.refundedMinor;
      if amount <= 0 || amount > refundable || !reasonKnown {
        return Some(ValidationError);
      }
      var split := SplitExactly(amount);
      if split.Failure? {
        return Some(split.error);
      }
      var (reversedCommission, reversedCredit) := split.value;
      refunds := refunds + [RefundRow(amount, RefundSucceeded)];
      Post(Ledger.Refund, -amount, Some(order.student));
      if reversedCredit != 0 {
        Post(ExpertCredit, -reversedCredit, Some(order.expert));
      }
      if reversedCommission != 0 {
        Post(Commission, -reversedCommission, None);
      }
      p := p.(refundedMinor := p.refundedMinor + amount);
      payment := Some(p.(status := if p.refundedMinor >= p.amountMinor then Refunded else PartiallyRefunded));
      return None;
    }

    method Settle(k: nat, actor: Option<Actor>) returns (error: Option<Error>)
      requires posted == []
      modifies `payouts, `posted
      ensures Outcome(error) == SettlePayout(old(Rows()), k, actor)
    {
      if !IsStaff(actor) {
        return Some(PermissionDenied);
      }
      if k >= |payouts| {
        return Some(NotFound);
      }
      if payouts[k].status == Paid {
        return Some(DuplicatePayout);
      }
      if payouts[k].status !in {Scheduled, PayoutFailed, InTransit} {
        return Some(InvalidTransition);
      }
      if order.hasOpenDispute {
        return Some(PayoutFrozen);
      }
      payouts := payouts[k := payouts[k].(status := Paid)];
      Post(Ledger.Payout, -payouts[k].amountMinor, Some(payouts[k].expert));
      return None;
    }

    method FailPayout(k: nat, actor: Option<Actor>) returns (error: Option<Error>)
      modifies `payouts
      ensures Step(Rows(), [], error) == MarkPayoutFailed(old(Rows()), k, actor)
    {
      if !IsStaff(actor) {
        return Some(PermissionDenied);
      }
      if k >= |payouts| {
        return Some(NotFound);
      }
      if payouts[k].status == Paid {
        return Some(InvalidTransition);
      }
      payouts := payouts[k := payouts[k].(status := PayoutFailed)];
      return None;
    }

    // --- disputes -------------------------------------------------------------------------------------

    /** The single writer of the freeze flag. */
    method Freeze(frozen: bool)
      modifies `order
      ensures order == old(order).(hasOpenDispute := frozen)
    {
      if order.hasOpenDispute != frozen {
        order := order.(hasOpenDispute := frozen);
      }
    }

    method Dispute(actor: Actor, reasonKnown: bool, textLength: nat, evidenceOwned: bool, windowDays: nat, now: Time)
      returns (error: Option<Error>)
      requires posted == []
      modifies this
      ensures Outcome(error)
              == OpenDispute(old(Rows()), actor, reasonKnown, textLength, evidenceOwned, windowDays, now)
    {
      if actor.id != order.student && actor.id != order.expert {
        return Some(PermissionDenied);
      }
      if dispute.Some? {
        return Some(DuplicateDispute);
      }
      if order.status == Completed {
        if order.completedAt.None? || now > order.completedAt.value + windowDays * DAY {
          return Some(DisputeWindowClosed);
        }
      } else if order.status !in {Active, Delivered, RevisionRequested} {
        return Some(DisputeWindowClosed);
      }
      if !reasonKnown || textLength < MIN_DISPUTE_TEXT || !evidenceOwned {
        return Some(ValidationError);
      }
      dispute := Some(OrderFile.Dispute(actor.id, order.status, Open, None));
      Freeze(true);
      var ok := Transition(OrderStatus.Disputed, DisputeOpened);
      return None;
    }

    method Move(to: DisputeStatus, actor: Option<Actor>) returns (error: Option<Error>)
      requires posted == []
      modifies `dispute
      ensures Outcome(error) == MoveDispute(old(Rows()), to, actor)
    {
      if !IsStaff(actor) {
        return Some(PermissionDenied);
      }
      if dispute.None? {
        return Some(NotFound);
      }
      if !DisputeAllowed(dispute.value.status, to) {
        return Some(InvalidTransition);
      }
      dispute := Some(dispute.value.(status := to));
      return None;
    }

    method VoidScheduledPayout(actor: Option<Actor>)
      requires IsStaff(actor)
      modifies `payouts
      ensures var k := FirstUnpaid(old(payouts));
              payouts == if k < |old(payouts)| then old(payouts)[k := old(payouts)[k].(status := PayoutFailed)]
                         else old(payouts)
      ensures |payouts| <= 1 ==> forall p <- payouts :: p.status in {Paid, PayoutFailed}
    {
      var k := FirstUnpaid(payouts);
      if k < |payouts| {
        var error := FailPayout(k, actor);
      }
    }

    method RefundForResolution(actor: Option<Actor>, outcome: Outcome, requested: Option<int>)
      returns (error: Option<Error>)
      requires posted == []
      modifies `payment, `refunds, `payouts, `posted
      ensures Outcome(error) == ResolutionRefund(old(Rows()), actor, outcome, requested)
    {
      if payment.None? || payment.value.status !in {Succeeded, PartiallyRefunded} {
        return Some(ValidationError);
      }
      var refundable := payment.value.amountMinor - payment.value.refundedMinor;
      var amount := refundable;
      if outcome != RefundFull {
        amount := if requested.Some? then requested.value else 0;
        if amount <= 0 || amount >= refundable {
          return Some(ValidationError);
        }
      }
      error := Refund(actor, amount, true);
      if error.None? && outcome == RefundFull {
        VoidScheduledPayout(actor);
      }
    }

    method CorrectPayout(outcome: Outcome)
      modifies `payouts
      ensures Rows() == Corrected(old(Rows()), outcome, Total(booked + posted, ExpertCredit))
    {
      if outcome in {RefundPartial, Split} {
        var k := FirstUnpaid(payouts);
        if k < |payouts| {
          payouts := payouts[k := payouts[k].(amountMinor := Total(booked + posted, ExpertCredit))];
        }
      }
    }

    method ResolveDispute(actor: Option<Actor>, outcome: Outcome, notesLength: nat, requested: Option<int>)
      returns (error: Option<Error>)
      requires posted == []
      modifies this
      ensures Outcome(error) == Resolve(old(Rows()), booked, actor, outcome, notesLength, requested)
    {
      if !IsStaff(actor) {
        return Some(PermissionDenied);
      }
      if dispute.None? {
        return Some(NotFound);
      }
      if dispute.value.status != UnderReview {
        return Some(InvalidTransition);
      }
      if notesLength < MIN_DISPUTE_TEXT {
        return Some(ValidationError);
      }
      var saved := Rows();
      if Refunds(outcome) {
        error := RefundForResolution(actor, outcome, requested);
        if error.Some? {
          Rollback(saved);
          return;
        }
      }
      Freeze(false);
      CorrectPayout(outcome);
      var to := OutcomeStatus(outcome, dispute.value.priorStatus);
      if to != order.status {
        var ok := Transition(to, DisputeResolved(outcome));
        if !ok {
          Rollback(saved);
          return Some(InvalidTransition);
        }
      } else {
        RecordEvent(DisputeResolved(outcome));
      }
      dispute := Some(dispute.value.(outcome := Some(outcome)));
      dispute := Some(dispute.value.(status := Resolved));
      return None;
    }

    method Close(actor: Option<Actor>) returns (error: Option<Error>)
      requires posted == []
      modifies `dispute
      ensures Outcome(error) == CloseDispute(old(Rows()), actor)
    {
      if !IsStaff(actor) {
        return Some(PermissionDenied);
      }
      if dispute.None? {
        return Some(NotFound);
      }
      if dispute.value.status != Resolved {
        return Some(InvalidTransition);
      }
      dispute := Some(dispute.value.(status := Closed));
      return None;
    }

    // --- any call ------------------------------------------------------------------------------------------

    method ServePayment(op: Op) returns (error: Option<Error>)
      requires posted == [] && PaymentOp(op)
      modifies this
      ensures Outcome(error) == ApplyPayment(old(Rows()), op)
    {
      error := None;
      match op
      case OpStart(actor, gateway) => error := Start(actor, gateway);
      case OpConfirm(accepted, now) => error := Confirm(accepted, now);
      case OpConfirmOrder(gateway, accepted, now) => error := ConfirmOrder(gateway, accepted, now);
      case OpSucceededEvent(accepted, now) => error := HandlePaymentSucceeded(accepted, now);
      case OpFailedEvent => HandlePaymentFailed();
      case OpRefundEvent(k) => HandleRefundSucceeded(k);
      case OpRefund(staff, amount, known) => error := Refund(staff, amount, known);
    }

    method ServeWork(op: Op) returns (error: Option<Error>)
      requires posted == [] && WorkOp(op)
      modifies this
      ensures Outcome(error) == ApplyWork(old(Rows()), booked, op)
    {
      error := None;
      match op
      case OpSubmit(actor, length, owned, now) => error := Submit(actor, length, owned, now);
      case OpRevise(actor, length) => error := Revise(actor, length);
      case OpApprove(approver, floor, now) => error := Approve(approver, floor, now);
      case OpCancel(actor, given, now) => error := CancelOrder(actor, given, now);
      case OpSweep(now) => error := SweepOne(now);
      case OpMark(marker) => RecordEvent(Marked(marker));
    }

    method ServePayout(op: Op) returns (error: Option<Error>)
      requires posted == [] && PayoutOp(op)
      modifies this
      ensures Outcome(error) == ApplyPayout(old(Rows()), booked, op)
    {
      match op
      case OpSchedule(floor) => error := Schedule(floor);
      case OpSettle(k, staff) => error := Settle(k, staff);
      case OpFailPayout(k, staff) => error := FailPayout(k, staff);
    }

    method ServeDispute(op: Op) returns (error: Option<Error>)
      requires posted == [] && !PaymentOp(op) && !WorkOp(op) && !PayoutOp(op)
      modifies this
      ensures Outcome(error) == ApplyDispute(old(Rows()), booked, op)
    {
      match op
      case OpDispute(actor, known, length, owned, days, now) =>
        error := Dispute(actor, known, length, owned, days, now);
      case OpTakeCase(staff) => error := Move(UnderReview, staff);
      case OpAwait(staff) => error := Move(AwaitingResponse, staff);
      case OpResolve(staff, outcome, length, requested) =>
        error := ResolveDispute(staff, outcome, length, requested);
      case OpClose(staff) => error := Close(staff);
    }

    /** Any service call: exactly its atomic step; a sound order stays sound with the entries
        posted; a refused call posts nothing and leaves all but the payment attempt alone. */
    method Serve(op: Op) returns (error: Option<Error>)
      requires posted == []
      modifies this
      ensures Outcome(error) == Apply(old(Rows()), booked, op)
      ensures Sound(old(Rows()), booked) ==> Sound(Rows(), booked + posted)
      ensures error.Some? ==> posted == [] && Rows() == old(Rows()).(payment := payment, attempts := attempts)
      ensures error.Some? && error != Some(PaymentFailed) && !op.OpConfirmOrder? ==> Rows() == old(Rows())
    {
      ghost var before := Rows();
      if PaymentOp(op) {
        error := ServePayment(op);
      } else if WorkOp(op) {
        error := ServeWork(op);
      } else if PayoutOp(op) {
        error := ServePayout(op);
      } else {
        error := ServeDispute(op);
      }
      KeptOrRefused(before, booked, op);
    }
  }

  lemma KeptOrRefused(f: File, l: seq<Entry>, op: Op)
    ensures var s := Apply(f, l, op);
            && (Sound(f, l) ==> Sound(s.file, l + s.posted))
            && (s.error.Some? ==>
                  s.posted == [] && s.file == f.(payment := s.file.payment, attempts := s.file.attempts)
                  && (s.file != f ==> s.error == Some(PaymentFailed) || op.OpConfirmOrder?))
  {
    if Sound(f, l) { StepSound(f, l, op); }
    if Apply(f, l, op).error.Some? { RefusedCall(f, l, op); }
  }
}
