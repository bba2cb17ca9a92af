/** The payments table: services/payment-service/internal/domain and
    services/payment-service/internal/repository/payment_repository.go. */
module PaymentStore {
  import opened Basics

  datatype PaymentStatus = Pending | Paid | Failed | Cancelled

  /** The method that a request names; only the first three are accepted and stored. */
  datatype Method = Card | Cash | Kaspi | Missing | Unknown(text: string)

  type PaymentId = string
  type BookingRef = string

  datatype Payment = Payment(
    id: PaymentId, bookingId: BookingRef, userId: string, parkingId: int, spotId: int, amount: int,
    paidBy: Method, status: PaymentStatus, providerId: string, createdAt: Time, paidAt: Option<Time>, updatedAt: Time)

  datatype PaymentError =
    | InvalidInput | InvalidMethod | CacheFailed | AlreadyInProgress | BookingUnavailable | CannotBePaid | AlreadyPaid
    | InvalidTimeRange | PriceFailed | EmailFailed | Database | PaymentNotFound | NotPending
    | ConfirmationFailed | NotificationFailed

  type Outcome = Result<Payment, PaymentError>

  type Payments = map<PaymentId, Payment>

  function InsertPayment(ps: Payments, p: Payment): Result<Payments, PaymentError> {
    if p.id in ps then Err(Database) else Ok(ps[p.id := p])
  }

  function AsPaid(p: Payment, providerId: string, now: Time): Payment {
    p.(status := Paid, providerId := providerId, paidAt := Some(now), updatedAt := now)
  }

  /** `WHERE id = $4`: whatever the status is. */
  function MarkPaidRow(ps: Payments, id: PaymentId, providerId: string, now: Time): (Payments, Outcome) {
    if id in ps then (ps[id := AsPaid(ps[id], providerId, now)], Ok(AsPaid(ps[id], providerId, now)))
    else (ps, Err(PaymentNotFound))
  }

  /** `WHERE id = $3 AND status = 'pending'`. */
  function CancelRow(ps: Payments, id: PaymentId, now: Time): (Payments, Outcome) {
    if id in ps && ps[id].status == Pending
    then var p := ps[id].(status := Cancelled, updatedAt := now); (ps[id := p], Ok(p))
    else (ps, Err(PaymentNotFound))
  }

  predicate HasPaid(ps: Payments, b: BookingRef) {
    exists id :: id in ps && ps[id].bookingId == b && ps[id].status == Paid
  }

  ghost predicate OnePaidPerBooking(ps: Payments) {
    forall i, j | i in ps && j in ps && ps[i].status == Paid && ps[j].status == Paid
      && ps[i].bookingId == ps[j].bookingId :: i == j
  }

  /** A provider id and a time of payment are there exactly when the payment is paid. */
  predicate PaidMarks(p: Payment) {
    && (p.status == Paid <==> p.paidAt.Some?)
    && (p.status == Paid <==> p.providerId != "")
  }

  class Repository {
    var payments: Payments

    constructor ()
      ensures payments == map[]
    {
      payments := map[];
    }

    method Create(p: Payment, dbOk: bool) returns (r: Result<(), PaymentError>)
      modifies this
      ensures if dbOk && InsertPayment(old(payments), p).Ok?
              then payments == InsertPayment(old(payments), p).value && r == Ok(())
              else payments == old(payments) && r == Err(Database)
    {
      if !dbOk || p.id in payments {
        return Err(Database);
      }
      payments := payments[p.id := p];
      return Ok(());
    }

    method GetByID(id: PaymentId, dbOk: bool) returns (r: Outcome)
      ensures r == if !dbOk then Err(Database) else if id in payments then Ok(payments[id]) else Err(PaymentNotFound)
    {
      if !dbOk {
        return Err(Database);
      }
      if id !in payments {
        return Err(PaymentNotFound);
      }
      return Ok(payments[id]);
    }

    method MarkPaid(id: PaymentId, providerId: string, now: Time) returns (r: Outcome)
      modifies this
      ensures (payments, r) == MarkPaidRow(old(payments), id, providerId, now)
    {
      if id !in payments {
        return Err(PaymentNotFound);
      }
      var p := payments[id].(status := Paid, providerId := providerId, paidAt := Some(now), updatedAt := now);
      payments := payments[id := p];
      return Ok(p);
    }

    method Cancel(id: PaymentId, now: Time) returns (r: Outcome)
      modifies this
      ensures (payments, r) == CancelRow(old(payments), id, now)
    {
      if id !in payments || payments[id].status != Pending {
        return Err(PaymentNotFound);
      }
      var p := payments[id].(status := Cancelled, updatedAt := now);
      payments := payments[id := p];
      return Ok(p);
    }

    method HasPaidPaymentForBooking(b: BookingRef) returns (found: bool)
      ensures found == HasPaid(payments, b)
    {
      found := exists id :: id in payments && payments[id].bookingId == b && payments[id].status == Paid;
    }
  }
}
