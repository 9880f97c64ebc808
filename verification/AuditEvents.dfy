/** Audit events as the ledger stores them, and the hashes that bind them. */
module AuditEvents {
  import opened Common

  /** The signed scope of a mandate. `scope` stands for route, cabin, flight constraints and version. */
  datatype MandateTerms = MandateTerms(
    mandateId: Id,
    principalId: Id,
    agentId: Id,
    allowedMerchantIds: seq<Id>,
    allowedMerchantCategories: seq<Id>,
    scope: string,
    maxPerPurchase: Money,
    maxAggregate: Money,
    maxUses: nat,
    validFrom: Instant,
    expiresAt: Instant,
    credentialId: Id)

  datatype PaymentStatus = APPROVED | DECLINED | TIMEOUT | UNKNOWN

  datatype EventType =
    | AuthorizationReserved
    | AuthorizationCancelled
    | PaymentAttemptStarted
    | PaymentResulted(status: PaymentStatus)
    | OrderConfirmed
    | OtherType(name: string)

  /** A payload that passed the strict allowlist of its event type. */
  datatype Payload =
    | ReservedPayload(authorizationId: Id, mandateId: Id, checkoutId: Id, principalId: Id, agentId: Id,
                      merchantId: Id, evidenceHash: Digest, reservedAmount: Money,
                      reservedAt: Instant, expiresAt: Instant)
    | CancelledPayload(authorizationId: Id, cancelledAt: Instant)
    | AttemptPayload(principalId: Id, agentId: Id, mandateId: Id, checkoutId: Id, paymentAttemptId: Id,
                     authorizationId: Id, amount: Money, startedAt: Instant, requestCorrelationId: Id)
    | ResultPayload(principalId: Id, agentId: Id, mandateId: Id, checkoutId: Id, paymentAttemptId: Id,
                    authorizationId: Id, status: PaymentStatus, paymentId: Option<Id>,
                    providerReference: Option<Id>, declineCode: Option<string>, amount: Money,
                    occurredAt: Instant, requestCorrelationId: Id)
    | OrderPayload(principalId: Id, agentId: Id, mandateId: Id, checkoutId: Id, authorizationId: Id,
                   paymentAttemptId: Id, confirmedPaymentId: Id, orderId: Id, receiptId: Id, merchantId: Id,
                   total: Money, issuedAt: Instant, requestCorrelationId: Id)
    | OtherPayload(name: string, body: string)

  function TypeOf(payload: Payload): EventType {
    match payload
    case ReservedPayload(_, _, _, _, _, _, _, _, _, _) => AuthorizationReserved
    case CancelledPayload(_, _) => AuthorizationCancelled
    case AttemptPayload(_, _, _, _, _, _, _, _, _) => PaymentAttemptStarted
    case ResultPayload(_, _, _, _, _, _, status, _, _, _, _, _, _) => PaymentResulted(status)
    case OrderPayload(_, _, _, _, _, _, _, _, _, _, _, _, _) => OrderConfirmed
    case OtherPayload(name, _) => OtherType(name)
  }

  datatype AuditEvent = AuditEvent(
    eventId: Id,
    correlationId: Id,
    eventType: EventType,
    subjectId: Id,
    sanitizedPayload: Option<Payload>,
    payloadHash: Digest,
    previousHash: Option<Digest>,
    eventHash: Digest,
    recordedAt: Instant)

  /** Exactly the fields that `event_hash` covers. */
  datatype EventHashInput = EventHashInput(
    eventId: Id,
    correlationId: Id,
    eventType: EventType,
    subjectId: Id,
    payloadHash: Digest,
    previousHash: Option<Digest>,
    recordedAt: Instant)

  function HashInput(event: AuditEvent): EventHashInput {
    EventHashInput(event.eventId, event.correlationId, event.eventType, event.subjectId,
                   event.payloadHash, event.previousHash, event.recordedAt)
  }

  /** SHA-256 over the canonical JSON form (section 3.2 of RFC 8785) of a payload, an event, mandate
      terms, and (cut to 32 digits) an over-long identifier: any functions at all. The theorems about
      chains use only that no two payloads and no two events collide. */
  datatype Hasher = Hasher(
    payload: Payload -> Digest,
    event: EventHashInput -> Digest,
    terms: MandateTerms -> Digest,
    shortened: string -> string)
  {
    ghost predicate CollisionFree() {
      && (forall p, q :: payload(p) == payload(q) ==> p == q)
      && (forall x, y :: event(x) == event(y) ==> x == y)
    }
  }
}
