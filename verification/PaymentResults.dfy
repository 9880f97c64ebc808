/** A payment attempt's result and the row that stores it (the pure part of payments/store.ts). */
module PaymentResults {
  import opened Common
  import opened AuditEvents

  datatype AuthorizationStatus = RESERVED | PAYMENT_PENDING | CONSUMED | FAILED | CANCELLED

  datatype PaymentResult =
    | Approved(authorizationId: Id, amount: Money, occurredAt: Instant,
               paymentId: Id, providerReference: Option<Id>)
    | Declined(authorizationId: Id, amount: Money, occurredAt: Instant,
               maybePaymentId: Option<Id>, declineCode: string)
    | TimedOut(authorizationId: Id, amount: Money, occurredAt: Instant)
    | Unknown(authorizationId: Id, amount: Money, occurredAt: Instant, maybePaymentId: Option<Id>)
  {
    function Status(): PaymentStatus {
      match this
      case Approved(_, _, _, _, _) => APPROVED
      case Declined(_, _, _, _, _) => DECLINED
      case TimedOut(_, _, _) => TIMEOUT
      case Unknown(_, _, _, _) => UNKNOWN
    }

    function PaymentId(): Option<Id> {
      match this
      case Approved(_, _, _, id, _) => Some(id)
      case Declined(_, _, _, id, _) => id
      case TimedOut(_, _, _) => None
      case Unknown(_, _, _, id) => id
    }

    function Reference(): Option<Id> {
      if Approved? then providerReference else None
    }

    function Decline(): Option<string> {
      if Declined? then Some(declineCode) else None
    }
  }

  datatype PaymentRow = PaymentRow(
    paymentAttemptId: Id,
    paymentId: Option<Id>,
    authorizationId: Id,
    credentialId: Id,
    amount: Money,
    status: Option<PaymentStatus>,
    providerReference: Option<Id>,
    declineCode: Option<string>,
    correlationId: Id,
    providerIdempotencyKey: Id,
    occurredAt: Option<Instant>)

  /** The table's check constraint on result columns. */
  predicate ResultShape(row: PaymentRow) {
    match row.status
    case None =>
      row.paymentId == None && row.providerReference == None && row.declineCode == None && row.occurredAt == None
    case Some(APPROVED) => row.paymentId.Some? && row.declineCode == None && row.occurredAt.Some?
    case Some(DECLINED) => row.declineCode.Some? && row.providerReference == None && row.occurredAt.Some?
    case Some(TIMEOUT) =>
      row.paymentId == None && row.providerReference == None && row.declineCode == None && row.occurredAt.Some?
    case Some(UNKNOWN) => row.providerReference == None && row.declineCode == None && row.occurredAt.Some?
  }

  function ResultFromRow(row: PaymentRow): Option<PaymentResult>
    requires ResultShape(row)
  {
    match row.status
    case None => None
    case Some(APPROVED) =>
      Some(Approved(row.authorizationId, row.amount, row.occurredAt.value, row.paymentId.value, row.providerReference))
    case Some(DECLINED) =>
      Some(Declined(row.authorizationId, row.amount, row.occurredAt.value, row.paymentId, row.declineCode.value))
    case Some(TIMEOUT) => Some(TimedOut(row.authorizationId, row.amount, row.occurredAt.value))
    case Some(UNKNOWN) => Some(Unknown(row.authorizationId, row.amount, row.occurredAt.value, row.paymentId))
  }

  function WithResult(row: PaymentRow, result: PaymentResult): PaymentRow {
    row.(status := Some(result.Status()), paymentId := result.PaymentId(), providerReference := result.Reference(),
         declineCode := result.Decline(), occurredAt := Some(result.occurredAt))
  }

  predicate BindsTo(row: PaymentRow, result: PaymentResult) {
    result.authorizationId == row.authorizationId && result.amount == row.amount
  }

  function AuthorizationStatusFor(result: PaymentResult): AuthorizationStatus {
    if result.Approved? then CONSUMED else if result.Declined? then FAILED else PAYMENT_PENDING
  }

  predicate CanReplace(stored: PaymentResult, incoming: PaymentResult) {
    && (stored.TimedOut? || stored.Unknown?)
    && (incoming.Approved? || incoming.Declined?)
    && (stored.PaymentId() == None || incoming.PaymentId() == None || stored.PaymentId() == incoming.PaymentId())
  }

  /** Whether `persistResult` writes `incoming` over what the row holds. */
  predicate Writes(row: PaymentRow, incoming: PaymentResult)
    requires ResultShape(row)
  {
    && BindsTo(row, incoming)
    && (ResultFromRow(row) == None || (ResultFromRow(row) != Some(incoming) && CanReplace(ResultFromRow(row).value, incoming)))
  }

  /** Reading a written row gives the result back, in a shape the table accepts. */
  lemma WriteReadsBack(row: PaymentRow, result: PaymentResult)
    requires BindsTo(row, result)
    ensures ResultShape(WithResult(row, result)) && ResultFromRow(WithResult(row, result)) == Some(result)
  {
  }

  /** 0 without a result, 1 with an open one, 2 with a final one. */
  function Rank(row: PaymentRow): nat {
    match row.status
    case None => 0
    case Some(status) => if status == TIMEOUT || status == UNKNOWN then 1 else 2
  }

  /** A row is the same, or has climbed; an id it knew is still the only one it ever shows. */
  predicate Climbs(row: PaymentRow, later: PaymentRow) {
    || later == row
    || (&& Rank(row) < Rank(later)
        && (Rank(row) == 0 ==> row.paymentId.None?)
        && (row.paymentId.Some? && later.paymentId.Some? ==> later.paymentId == row.paymentId)
        && later.paymentAttemptId == row.paymentAttemptId && later.providerIdempotencyKey == row.providerIdempotencyKey
        && later.amount == row.amount)
  }

  lemma ClimbsOn(a: PaymentRow, b: PaymentRow, c: PaymentRow)
    requires Climbs(a, b) && Climbs(b, c)
    ensures Climbs(a, c)
  {
  }

  lemma WriteClimbs(row: PaymentRow, result: PaymentResult)
    requires ResultShape(row) && Writes(row, result)
    ensures Climbs(row, WithResult(row, result)) && Rank(row) < Rank(WithResult(row, result))
  {
  }

  ghost function WriteAll(row: PaymentRow, results: seq<PaymentResult>): (PaymentRow, nat)
    requires ResultShape(row)
    decreases |results|
  {
    if results == [] then (row, 0)
    else if Writes(row, results[0]) then
      WriteReadsBack(row, results[0]);
      var (last, writes) := WriteAll(WithResult(row, results[0]), results[1..]);
      (last, writes + 1)
    else WriteAll(row, results[1..])
  }

  /** Whatever results are offered to a row, in whatever order: it is written at most as often as it can
      still climb (twice from an empty row), it never comes down, a final result is never rewritten, and
      a payment id that is known at the end is the one that was known before. */
  lemma {:induction false} ResultsOnlyClimb(row: PaymentRow, results: seq<PaymentResult>)
    requires ResultShape(row)
    ensures var (last, writes) := WriteAll(row, results);
      && ResultShape(last)
      && Rank(row) + writes <= Rank(last) <= 2
      && (Rank(row) == 2 ==> last == row)
      && (row.paymentId.Some? && last.paymentId.Some? ==> last.paymentId == row.paymentId)
      && last.paymentAttemptId == row.paymentAttemptId && last.amount == row.amount
      && last.providerIdempotencyKey == row.providerIdempotencyKey
    decreases |results|
  {
    if results != [] {
      if Writes(row, results[0]) {
        WriteReadsBack(row, results[0]);
        ResultsOnlyClimb(WithResult(row, results[0]), results[1..]);
        if Rank(row) == 1 { assert Rank(WithResult(row, results[0])) == 2; }
      } else {
        ResultsOnlyClimb(row, results[1..]);
      }
    }
  }
}
