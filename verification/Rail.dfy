/** The authority rail's tables and the transactions that write them:
    reservation (verify/store.ts, verify/policy.ts), claim and result (payments/store.ts). */
module Rail {
  import opened Common
  import opened AuditEvents
  import opened Ledger
  import opened PaymentResults
  import opened MapSums
  import M = Mandates

  datatype AccessScope = OWNER | PUBLIC

  datatype AgentRow = AgentRow(principalId: Id, accessScope: AccessScope, active: bool)

  datatype CredentialRow = CredentialRow(principalId: Id, display: string)

  datatype CheckoutRow = CheckoutRow(
    merchantId: Id, checkoutHash: Digest, total: Money, body: string, createdAt: Instant, expiresAt: Instant)

  datatype AuthorizationRow = AuthorizationRow(
    mandateId: Id,
    checkoutId: Id,
    checkoutHash: Digest,
    principalId: Id,
    agentId: Id,
    merchantId: Id,
    allowedMerchantIds: seq<Id>,
    maxAmount: Money,
    reservedAmount: Money,
    status: AuthorizationStatus,
    evidenceHash: Digest,
    correlationId: Id,
    idempotencyKey: Id,
    requestHash: Digest,
    reservedAt: Instant,
    expiresAt: Instant)

  datatype OrderRow = OrderRow(
    orderId: Id,
    receiptId: Id,
    checkoutId: Id,
    authorizationId: Id,
    paymentId: Id,
    merchantId: Id,
    total: Money,
    auditEventId: Id,
    correlationId: Id,
    idempotencyKey: Id,
    issuedAt: Instant)

  /** Payments and orders are keyed by their authorization id, a unique column of both tables. */
  datatype Db = Db(
    mandates: map<Id, M.MandateRow>,
    agents: map<Id, AgentRow>,
    credentials: map<Id, CredentialRow>,
    checkouts: map<Id, CheckoutRow>,
    authorizations: map<Id, AuthorizationRow>,
    payments: map<Id, PaymentRow>,
    orders: map<Id, OrderRow>,
    audit: seq<AuditRow>)

  datatype RailError =
    | NotFound | NotPayable | AlreadyPending | IntegrityFailure | ExpiredOrClaimed | Inconsistent | MalformedRow
    | BindingMismatch | ResultConflict | NotPending | NoSuchAttempt | KeyMismatch | MissingCheckout
    | Denied | KeyConflict | DuplicateKey | LedgerFailure(cause: LedgerError)

  // ---------- Shared pieces ----------

  datatype Logged = Logged(event: AuditEvent, audit: seq<AuditRow>)

  /** An audit append inside a transaction: its failure fails the transaction. */
  ghost function Log(h: Hasher, audit: seq<AuditRow>, input: AppendInput, eventId: Id): (r: Result<Logged, RailError>)
    ensures r.Err? ==> r.error.LedgerFailure?
  {
    var (r, audit') := Appended(h, audit, input, eventId);
    if r.Ok? then Ok(Logged(r.value, audit')) else Err(LedgerFailure(r.error))
  }

  function CanTransition(from: AuthorizationStatus, to: AuthorizationStatus): bool {
    match from
    case RESERVED => to == PAYMENT_PENDING || to == CANCELLED
    case PAYMENT_PENDING => to == CONSUMED || to == FAILED
    case _ => false
  }

  function StableIdentifier(h: Hasher, prefix: string, source: string): string {
    var readable := prefix + "_" + source;
    if |readable| <= 128 then readable else prefix + "_" + h.shortened(source)
  }

  function StatusName(status: PaymentStatus): string {
    match status
    case APPROVED => "APPROVED"
    case DECLINED => "DECLINED"
    case TIMEOUT => "TIMEOUT"
    case UNKNOWN => "UNKNOWN"
  }

  // ---------- Reservation ----------

  datatype Cancellation = Cancellation(authorizationId: Id, eventId: Id)

  /** `otherChecks` stands for the parts of the policy that no property here depends on: signatures, the
      agent's key, the flight scope, the nonce and the human-approval flag. `cancellations` lists the
      reservations the stale-reservation update returned, in its order, with their new event ids. */
  datatype ReserveInput = ReserveInput(
    authorizationId: Id,
    mandateId: Id,
    principalId: Id,
    agentId: Id,
    allowedMerchantIds: seq<Id>,
    checkoutHash: Digest,
    maxAmount: Money,
    maxUses: nat,
    validUntil: Instant,
    checkoutId: Id,
    checkout: CheckoutRow,
    otherChecks: bool,
    evidenceHash: Digest,
    correlationId: Id,
    idempotencyKey: Id,
    requestHash: Digest,
    now: Instant,
    eventId: Id,
    cancellations: seq<Cancellation>)

  ghost predicate Stale(a: AuthorizationRow, mandateId: Id, now: Instant) {
    a.mandateId == mandateId && a.status == RESERVED && a.expiresAt <= now
  }

  ghost predicate ListsStale(db: Db, input: ReserveInput) {
    && (forall i, j :: 0 <= i < j < |input.cancellations| ==>
         input.cancellations[i].authorizationId != input.cancellations[j].authorizationId)
    && (forall i :: 0 <= i < |input.cancellations| ==>
         var id := input.cancellations[i].authorizationId;
         id in db.authorizations && Stale(db.authorizations[id], input.mandateId, input.now))
    && (forall id :: id in db.authorizations && Stale(db.authorizations[id], input.mandateId, input.now) ==>
         exists i :: 0 <= i < |input.cancellations| && input.cancellations[i].authorizationId == id)
  }

  ghost function CancelOne(h: Hasher, db: Db, c: Cancellation, now: Instant, correlationId: Id): Result<Db, RailError>
    requires c.authorizationId in db.authorizations
  {
    var a := db.authorizations[c.authorizationId];
    var logged := Log(h, db.audit,
      AppendInput(correlationId, c.authorizationId, CancelledPayload(c.authorizationId, now), now, None), c.eventId);
    if logged.Err? then Err(logged.error)
    else Ok(db.(authorizations := db.authorizations[c.authorizationId := a.(status := CANCELLED)],
                audit := logged.value.audit))
  }

  ghost function CancelAll(h: Hasher, db: Db, cs: seq<Cancellation>, now: Instant, correlationId: Id): Result<Db, RailError>
    requires forall i :: 0 <= i < |cs| ==> cs[i].authorizationId in db.authorizations
    decreases |cs|
  {
    if cs == [] then Ok(db)
    else
      var first := CancelOne(h, db, cs[0], now, correlationId);
      if first.Err? then first else CancelAll(h, first.value, cs[1..], now, correlationId)
  }

  /** Rows that hold capacity for a new reservation at `now`. */
  predicate HoldsCapacity(a: AuthorizationRow, mandateId: Id, now: Instant) {
    && a.mandateId == mandateId
    && ((a.status == RESERVED && now < a.expiresAt) || a.status == PAYMENT_PENDING || a.status == CONSUMED)
  }

  function CapacityAmount(mandateId: Id, now: Instant): AuthorizationRow -> nat {
    (a: AuthorizationRow) => if HoldsCapacity(a, mandateId, now) then a.reservedAmount.amount else 0
  }

  function CapacityUse(mandateId: Id, now: Instant): AuthorizationRow -> nat {
    (a: AuthorizationRow) => if HoldsCapacity(a, mandateId, now) then 1 else 0
  }

  ghost predicate AlreadyUsed(db: Db, input: ReserveInput) {
    exists id :: id in db.authorizations &&
      (db.authorizations[id].checkoutId == input.checkoutId
       || (db.authorizations[id].agentId == input.agentId
           && db.authorizations[id].checkoutHash == input.checkout.checkoutHash))
  }

  /** The stored checkouts with this id or hash: none, or exactly the requested one. */
  ghost predicate StoredCheckoutMatches(db: Db, input: ReserveInput) {
    forall c :: c in db.checkouts && (c == input.checkoutId || db.checkouts[c].checkoutHash == input.checkout.checkoutHash) ==>
      c == input.checkoutId && db.checkouts[c] == input.checkout
  }

  /** The final, transactional ALLOW of the policy. */
  ghost predicate Allows(h: Hasher, db: Db, input: ReserveInput) {
    && input.otherChecks
    && input.agentId in db.agents && db.agents[input.agentId].active
    && input.mandateId in db.mandates
    && var row := db.mandates[input.mandateId];
       var terms, total := row.terms, input.checkout.total;
    && M.AuthorityValid(h, row, input.now)
    && terms.agentId == input.agentId && terms.principalId == input.principalId
    && input.checkout.merchantId in terms.allowedMerchantIds && input.checkout.merchantId in input.allowedMerchantIds
    && StoredCheckoutMatches(db, input) && input.checkoutHash == input.checkout.checkoutHash
    && total.amount <= terms.maxPerPurchase.amount && total.amount <= input.maxAmount.amount
    && total.currency == terms.maxPerPurchase.currency == terms.maxAggregate.currency == input.maxAmount.currency
    && input.now < input.validUntil
    && row.activatedAt.Some? && row.activatedAt.value <= input.now
    && input.checkout.createdAt <= input.now < input.checkout.expiresAt
    && Sum(db.authorizations, CapacityAmount(input.mandateId, input.now)) + total.amount <= terms.maxAggregate.amount
    && Sum(db.authorizations, CapacityUse(input.mandateId, input.now)) + 1 <= terms.maxUses
    && Sum(db.authorizations, CapacityUse(input.mandateId, input.now)) + 1 <= input.maxUses
    && !AlreadyUsed(db, input)
  }

  function Min(a: Instant, b: Instant): Instant { if a <= b then a else b }

  function NewAuthorization(input: ReserveInput, mandateExpiry: Instant): AuthorizationRow {
    AuthorizationRow(input.mandateId, input.checkoutId, input.checkout.checkoutHash, input.principalId, input.agentId,
      input.checkout.merchantId, input.allowedMerchantIds, input.maxAmount, input.checkout.total, RESERVED,
      input.evidenceHash, input.correlationId, input.idempotencyKey, input.requestHash, input.now,
      Min(input.validUntil, Min(input.checkout.expiresAt, mandateExpiry)))
  }

  function ReservedEvidence(id: Id, a: AuthorizationRow): Payload {
    ReservedPayload(id, a.mandateId, a.checkoutId, a.principalId, a.agentId, a.merchantId, a.evidenceHash,
                    a.reservedAmount, a.reservedAt, a.expiresAt)
  }

  /** The reservation transaction. A denial still commits the mandate's expiry and the cancellations. */
  ghost function Reserve(h: Hasher, db: Db, input: ReserveInput): (Result<Id, RailError>, Db)
    requires ListsStale(db, input)
  {
    if id :| id in db.authorizations && db.authorizations[id].idempotencyKey == input.idempotencyKey then
      (if db.authorizations[id].requestHash == input.requestHash then Ok(id) else Err(KeyConflict), db)
    else
      var touched := db.(mandates := M.Touch(M.Db(db.mandates, map[]), input.mandateId, input.now).mandates);
      var cancelled := CancelAll(h, touched, input.cancellations, input.now, input.correlationId);
      if cancelled.Err? then (Err(cancelled.error), db)
      else
        var db' := cancelled.value;
        if !Allows(h, db', input) then (Err(Denied), db')
        else if input.authorizationId in db'.authorizations then (Err(DuplicateKey), db)
        else
          var a := NewAuthorization(input, db'.mandates[input.mandateId].terms.expiresAt);
          var logged := Log(h, db'.audit,
            AppendInput(input.correlationId, input.authorizationId, ReservedEvidence(input.authorizationId, a),
                        input.now, Some("verify:" + input.idempotencyKey)), input.eventId);
          if logged.Err? then (Err(logged.error), db)
          else (Ok(input.authorizationId),
                db'.(checkouts := db'.checkouts[input.checkoutId := input.checkout],
                     authorizations := db'.authorizations[input.authorizationId := a],
                     audit := logged.value.audit))
  }

  // ---------- claim ----------

  datatype PaymentClaim =
    | Claimed(paymentAttemptId: Id, idempotencyKey: Id, authorizationId: Id, amount: Money)
    | Completed(result: PaymentResult)

  datatype ClaimInput = ClaimInput(
    authorizationId: Id, correlationId: Id, now: Instant, paymentAttemptId: Id, providerKey: Id, eventId: Id)

  function ExistingClaim(payments: map<Id, PaymentRow>, id: Id, status: AuthorizationStatus)
    : (r: Result<Option<PaymentClaim>, RailError>)
    ensures r.Ok? && r.value.Some? ==> r.value.value.Completed?
  {
    if id !in payments then Ok(None)
    else if !ResultShape(payments[id]) then Err(MalformedRow)
    else
      var result := ResultFromRow(payments[id]);
      if result.None? then Err(AlreadyPending)
      else if AuthorizationStatusFor(result.value) != status then Err(Inconsistent)
      else Ok(Some(Completed(result.value)))
  }

  predicate BindingsHold(mandates: map<Id, M.MandateRow>, checkouts: map<Id, CheckoutRow>,
                         credentials: map<Id, CredentialRow>, a: AuthorizationRow) {
    && a.mandateId in mandates && a.checkoutId in checkouts
    && var terms, checkout := mandates[a.mandateId].terms, checkouts[a.checkoutId];
    && terms.credentialId in credentials
    && a.principalId == terms.principalId && a.agentId == terms.agentId
    && a.checkoutHash == checkout.checkoutHash && a.merchantId == checkout.merchantId
    && checkout.merchantId in a.allowedMerchantIds
    && a.reservedAmount == checkout.total
    && terms.principalId == credentials[terms.credentialId].principalId
  }

  predicate AttemptTaken(payments: map<Id, PaymentRow>, id: Id, attemptId: Id, key: Id) {
    || id in payments
    || exists k :: k in payments && (payments[k].paymentAttemptId == attemptId || payments[k].providerIdempotencyKey == key)
  }

  function NewPayment(c: ClaimInput, a: AuthorizationRow, credentialId: Id): PaymentRow {
    PaymentRow(c.paymentAttemptId, None, c.authorizationId, credentialId, a.reservedAmount, None, None, None,
               c.correlationId, c.providerKey, None)
  }

  function AttemptStarted(c: ClaimInput, a: AuthorizationRow): AppendInput {
    AppendInput(a.correlationId, c.authorizationId,
      AttemptPayload(a.principalId, a.agentId, a.mandateId, a.checkoutId, c.paymentAttemptId, c.authorizationId,
                     a.reservedAmount, c.now, c.correlationId),
      c.now, Some("payment-attempt:" + c.paymentAttemptId))
  }

  /** What a claim that cannot move the authorization answers with. */
  function Refusal(payments: map<Id, PaymentRow>, id: Id, status: AuthorizationStatus, otherwise: RailError)
    : (r: Result<PaymentClaim, RailError>)
    ensures r.Ok? ==> r.value.Completed?
  {
    var existing := ExistingClaim(payments, id, status);
    if existing.Err? then Err(existing.error)
    else if existing.value.Some? then Ok(existing.value.value)
    else Err(otherwise)
  }

  ghost function Claim(h: Hasher, db: Db, c: ClaimInput): (Result<PaymentClaim, RailError>, Db) {
    var id := c.authorizationId;
    if id !in db.authorizations then (Err(NotFound), db)
    else
      var a := db.authorizations[id];
      if a.status != RESERVED then (Refusal(db.payments, id, a.status, NotPayable), db)
      else if !BindingsHold(db.mandates, db.checkouts, db.credentials, a) then (Err(IntegrityFailure), db)
      else if a.expiresAt <= c.now then (Refusal(db.payments, id, a.status, ExpiredOrClaimed), db)
      else if AttemptTaken(db.payments, id, c.paymentAttemptId, c.providerKey) then (Err(DuplicateKey), db)
      else
        var logged := Log(h, db.audit, AttemptStarted(c, a), c.eventId);
        if logged.Err? then (Err(logged.error), db)
        else
          var payment := NewPayment(c, a, db.mandates[a.mandateId].terms.credentialId);
          (Ok(Claimed(c.paymentAttemptId, c.providerKey, id, a.reservedAmount)),
           db.(authorizations := db.authorizations[id := a.(status := PAYMENT_PENDING)],
               payments := db.payments[id := payment],
               audit := logged.value.audit))
  }

  // ---------- persistResult ----------

  datatype PersistInput = PersistInput(
    paymentAttemptId: Id, result: PaymentResult, now: Instant, resultEventId: Id, orderEventId: Id)

  predicate PaymentIdTaken(payments: map<Id, PaymentRow>, id: Id, paymentId: Option<Id>) {
    paymentId.Some? && exists k :: k in payments && k != id && payments[k].paymentId == paymentId
  }

  predicate OrderTaken(orders: map<Id, OrderRow>, order: OrderRow) {
    || order.authorizationId in orders
    || exists k :: k in orders &&
         (orders[k].orderId == order.orderId || orders[k].receiptId == order.receiptId
          || orders[k].paymentId == order.paymentId || orders[k].checkoutId == order.checkoutId
          || orders[k].auditEventId == order.auditEventId || orders[k].idempotencyKey == order.idempotencyKey)
  }

  function ResultEvent(id: Id, a: AuthorizationRow, payment: PaymentRow, p: PersistInput): AppendInput {
    AppendInput(a.correlationId, id,
      ResultPayload(a.principalId, a.agentId, a.mandateId, a.checkoutId, payment.paymentAttemptId, id,
                    p.result.Status(), p.result.PaymentId(), p.result.Reference(), p.result.Decline(), p.result.amount,
                    p.result.occurredAt, payment.correlationId),
      p.now, Some("payment-result:" + payment.paymentAttemptId + ":" + StatusName(p.result.Status())))
  }

  function OrderEvent(h: Hasher, id: Id, a: AuthorizationRow, payment: PaymentRow, checkout: CheckoutRow, p: PersistInput)
    : AppendInput
    requires p.result.Approved?
  {
    AppendInput(a.correlationId, id,
      OrderPayload(a.principalId, a.agentId, a.mandateId, a.checkoutId, id, payment.paymentAttemptId, p.result.paymentId,
                   StableIdentifier(h, "order", id), StableIdentifier(h, "receipt", id), checkout.merchantId,
                   checkout.total, p.now, payment.correlationId),
      p.now, Some("order:" + id))
  }

  function NewOrder(h: Hasher, id: Id, a: AuthorizationRow, payment: PaymentRow, checkout: CheckoutRow,
                    p: PersistInput, auditEventId: Id): OrderRow
    requires p.result.Approved?
  {
    OrderRow(StableIdentifier(h, "order", id), StableIdentifier(h, "receipt", id), a.checkoutId, id, p.result.paymentId,
             checkout.merchantId, checkout.total, auditEventId, payment.correlationId, payment.providerIdempotencyKey, p.now)
  }

  /** `createApprovedOrder`: the orders and the audit table after it. */
  ghost function ApprovedOrder(h: Hasher, db: Db, id: Id, payment: PaymentRow, p: PersistInput): Result<Db, RailError>
    requires id in db.authorizations && p.result.Approved?
  {
    var a := db.authorizations[id];
    if a.checkoutId !in db.checkouts then Err(MissingCheckout)
    else
      var checkout := db.checkouts[a.checkoutId];
      var logged := Log(h, db.audit, OrderEvent(h, id, a, payment, checkout, p), p.orderEventId);
      if logged.Err? then Err(logged.error)
      else
        var order := NewOrder(h, id, a, payment, checkout, p, logged.value.event.eventId);
        if OrderTaken(db.orders, order) then Err(DuplicateKey)
        else Ok(db.(orders := db.orders[id := order], audit := logged.value.audit))
  }

  ghost function WriteResult(h: Hasher, db: Db, id: Id, p: PersistInput): Result<Db, RailError>
    requires id in db.payments
  {
    var payment := db.payments[id];
    if id !in db.authorizations || db.authorizations[id].status != PAYMENT_PENDING then Err(NotPending)
    else if PaymentIdTaken(db.payments, id, p.result.PaymentId()) then Err(DuplicateKey)
    else
      var a := db.authorizations[id];
      var logged := Log(h, db.audit, ResultEvent(id, a, payment, p), p.resultEventId);
      if logged.Err? then Err(logged.error)
      else
        var db' := db.(payments := db.payments[id := WithResult(payment, p.result)],
                       authorizations := db.authorizations[id := a.(status := AuthorizationStatusFor(p.result))],
                       audit := logged.value.audit);
        if p.result.Approved? then ApprovedOrder(h, db', id, payment, p) else Ok(db')
  }

  ghost predicate OwnsAttempt(db: Db, id: Id, attemptId: Id) {
    id in db.payments && db.payments[id].paymentAttemptId == attemptId
  }

  ghost function PersistFor(h: Hasher, db: Db, id: Id, p: PersistInput): (Result<PaymentResult, RailError>, Db)
    requires id in db.payments
  {
    var payment := db.payments[id];
    if !BindsTo(payment, p.result) then (Err(BindingMismatch), db)
    else if !ResultShape(payment) then (Err(MalformedRow), db)
    else
      var stored := ResultFromRow(payment);
      if stored == Some(p.result) then (Ok(p.result), db)
      else if stored.Some? && !CanReplace(stored.value, p.result) then (Err(ResultConflict), db)
      else
        var written := WriteResult(h, db, id, p);
        if written.Err? then (Err(written.error), db) else (Ok(p.result), written.value)
  }

  ghost function Persist(h: Hasher, db: Db, p: PersistInput): (Result<PaymentResult, RailError>, Db) {
    if id :| OwnsAttempt(db, id, p.paymentAttemptId) then PersistFor(h, db, id, p)
    else (Err(NoSuchAttempt), db)
  }

  // ---------- Reconciliation ----------

  /** `loadPendingAttempt`: the attempt and provider key of a pending authorization, never a new one. */
  function PendingAttempt(authorizations: map<Id, AuthorizationRow>, payments: map<Id, PaymentRow>, id: Id)
    : Result<(Id, Id), RailError>
  {
    if id !in payments || id !in authorizations || authorizations[id].status != PAYMENT_PENDING then Err(NotPending)
    else Ok((payments[id].paymentAttemptId, payments[id].providerIdempotencyKey))
  }

  /** `persistReconciledResult`, whose lookup and whose write are separate: `db` is the state at the write. */
  ghost function PersistReconciled(h: Hasher, db: Db, attempt: Result<(Id, Id), RailError>, providerKey: Id, p: PersistInput)
    : (Result<PaymentResult, RailError>, Db)
  {
    if attempt.Err? then (Err(attempt.error), db)
    else if attempt.value.1 != providerKey then (Err(KeyMismatch), db)
    else Persist(h, db, p.(paymentAttemptId := attempt.value.0))
  }
}
