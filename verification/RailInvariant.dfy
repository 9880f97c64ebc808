/** What every transaction of the rail keeps: authorization, payment, order and audit rows agree. */
module RailInvariant {
  import opened Common
  import opened AuditEvents
  import opened Ledger
  import opened PaymentResults
  import opened Rail

  // ---------- The evidence a subject's chain holds ----------

  /** The first event of a type, as `events.find` returns it. */
  function FirstOf(chain: seq<AuditEvent>, t: EventType): (r: Option<AuditEvent>)
    ensures r.Some? ==> r.value in chain && r.value.eventType == t
    ensures r.None? ==> forall e :: e in chain ==> e.eventType != t
  {
    if chain == [] then None
    else
      var before, last := FirstOf(chain[..|chain| - 1], t), chain[|chain| - 1];
      assert chain == chain[..|chain| - 1] + [last];
      if before.Some? then before else if last.eventType == t then Some(last) else None
  }

  function PayloadOf(event: Option<AuditEvent>): Option<Payload> {
    if event.Some? then event.value.sanitizedPayload else None
  }

  function Evidence(audit: seq<AuditRow>, subjectId: Id, t: EventType): Option<Payload> {
    PayloadOf(FirstOf(SubjectEvents(audit, subjectId), t))
  }

  lemma FirstOfAppend(chain: seq<AuditEvent>, e: AuditEvent, t: EventType)
    ensures FirstOf(chain + [e], t)
         == if FirstOf(chain, t).Some? then FirstOf(chain, t) else if e.eventType == t then Some(e) else None
  {
    assert (chain + [e])[..|chain|] == chain;
  }

  lemma FaithfulEvents(h: Hasher, audit: seq<AuditRow>, subjectId: Id)
    requires LedgerInv(h, audit)
    ensures forall e :: e in SubjectEvents(audit, subjectId) ==> e.sanitizedPayload.Some?
  {
    forall e | e in SubjectEvents(audit, subjectId) ensures e.sanitizedPayload.Some? {
      var i :| 0 <= i < |audit| && StoredEvent(audit[i]) == e;
      assert FaithfulRow(h, audit[i]);
    }
  }

  lemma {:induction false} RowInSubject(audit: seq<AuditRow>, i: nat)
    requires i < |audit|
    ensures StoredEvent(audit[i]) in SubjectEvents(audit, audit[i].event.subjectId)
  {
    if i < |audit| - 1 { RowInSubject(audit[..|audit| - 1], i); }
  }

  lemma ReplayIsEvidence(h: Hasher, audit: seq<AuditRow>, input: AppendInput)
    requires LedgerInv(h, audit) && Replay(audit, input).Some? && SameEvidence(h, Replay(audit, input).value, input)
    ensures Evidence(audit, input.subjectId, TypeOf(input.payload)).Some?
  {
    var event := Replay(audit, input).value;
    var i :| 0 <= i < |audit| && event == StoredEvent(audit[i]);
    RowInSubject(audit, i);
    FaithfulEvents(h, audit, input.subjectId);
    assert FirstOf(SubjectEvents(audit, input.subjectId), TypeOf(input.payload)).Some?;
  }

  lemma NewRowIsEvidence(h: Hasher, audit: seq<AuditRow>, input: AppendInput, eventId: Id, s: Id, t: EventType)
    requires h.CollisionFree() && LedgerInv(h, audit) && Replay(audit, input).None? && !IdTaken(audit, eventId)
    ensures Evidence(audit + [NextRow(h, audit, input, eventId)], s, t) ==
      if s == input.subjectId && t == TypeOf(input.payload) && Evidence(audit, s, t) == None then Some(input.payload)
      else Evidence(audit, s, t)
  {
    var row := NextRow(h, audit, input, eventId);
    NextRowKeepsInv(h, audit, input, eventId);
    if s == input.subjectId {
      FirstOfAppend(SubjectEvents(audit, s), row.event, t);
      FaithfulEvents(h, audit, s);
    }
  }

  /** A logged payload becomes its subject's evidence of that type unless there was one before, and
      nothing else becomes evidence of anything. */
  lemma LogEvidence(h: Hasher, audit: seq<AuditRow>, input: AppendInput, eventId: Id)
    requires h.CollisionFree() && LedgerInv(h, audit) && Log(h, audit, input, eventId).Ok?
    ensures var audit' := Log(h, audit, input, eventId).value.audit;
      && LedgerInv(h, audit')
      && forall s, t :: Evidence(audit', s, t) ==
           if s == input.subjectId && t == TypeOf(input.payload) && Evidence(audit, s, t) == None then Some(input.payload)
           else Evidence(audit, s, t)
  {
    hide LedgerInv, Evidence, NextRow, Appended, SameEvidence;
    AppendKeepsInv(h, audit, input, eventId);
    AppendOutcome(h, audit, input, eventId);
    if Replay(audit, input).Some? {
      ReplayIsEvidence(h, audit, input);
    } else {
      forall s, t ensures Evidence(audit + [NextRow(h, audit, input, eventId)], s, t) ==
          if s == input.subjectId && t == TypeOf(input.payload) && Evidence(audit, s, t) == None then Some(input.payload)
          else Evidence(audit, s, t)
      {
        NewRowIsEvidence(h, audit, input, eventId, s, t);
      }
    }
  }

  // ---------- The invariant, one authorization id at a time ----------

  ghost predicate NoPaymentEvidence(audit: seq<AuditRow>, id: Id) {
    && Evidence(audit, id, PaymentAttemptStarted) == None
    && Evidence(audit, id, PaymentResulted(APPROVED)) == None
    && Evidence(audit, id, OrderConfirmed) == None
  }

  /** Authority as it stood when the capacity was reserved; none of it can be taken back later. */
  ghost predicate Authorised(db: Db, id: Id, a: AuthorizationRow) {
    && a.mandateId in db.mandates && a.checkoutId in db.checkouts && a.agentId in db.agents
    && var m, checkout := db.mandates[a.mandateId], db.checkouts[a.checkoutId];
    && m.status != M.DRAFT && m.activatedAt.Some? && m.activatedAt.value <= a.reservedAt
    && m.terms.principalId == a.principalId && m.terms.agentId == a.agentId
    && m.terms.validFrom <= a.reservedAt < a.expiresAt <= m.terms.expiresAt && a.expiresAt <= checkout.expiresAt
    && a.merchantId in m.terms.allowedMerchantIds && a.merchantId in a.allowedMerchantIds
    && a.reservedAmount.amount <= m.terms.maxPerPurchase.amount
    && a.reservedAmount.currency == m.terms.maxPerPurchase.currency == a.maxAmount.currency
    && a.reservedAmount.amount <= a.maxAmount.amount
    && checkout.merchantId == a.merchantId && checkout.total == a.reservedAmount && checkout.checkoutHash == a.checkoutHash
    && Evidence(db.audit, id, AuthorizationReserved) == Some(ReservedEvidence(id, a))
  }

  ghost predicate AttemptEvidence(audit: seq<AuditRow>, id: Id) {
    var e := Evidence(audit, id, PaymentAttemptStarted);
    e.Some? && e.value.AttemptPayload? && e.value.authorizationId == id
  }

  ghost predicate ApprovedEvidence(audit: seq<AuditRow>, id: Id, payment: PaymentRow) {
    var e := Evidence(audit, id, PaymentResulted(APPROVED));
    && e.Some? && e.value.ResultPayload? && e.value.authorizationId == id
    && e.value.paymentId == payment.paymentId && e.value.amount == payment.amount
  }

  ghost predicate ConfirmedEvidence(audit: seq<AuditRow>, id: Id, order: OrderRow) {
    var e := Evidence(audit, id, OrderConfirmed);
    && e.Some? && e.value.OrderPayload? && e.value.confirmedPaymentId == order.paymentId
    && e.value.orderId == order.orderId && e.value.receiptId == order.receiptId && e.value.total == order.total
  }

  ghost predicate PaymentOf(db: Db, id: Id, a: AuthorizationRow) {
    && id in db.payments
    && var p := db.payments[id];
    && p.authorizationId == id && p.amount == a.reservedAmount && ResultShape(p)
    && AttemptEvidence(db.audit, id)
  }

  ghost predicate OrderOf(db: Db, id: Id, a: AuthorizationRow)
    requires id in db.payments
  {
    && id in db.orders
    && var o, p := db.orders[id], db.payments[id];
    && o.authorizationId == id && o.checkoutId == a.checkoutId && p.paymentId == Some(o.paymentId)
    && o.merchantId == a.merchantId && o.total == a.reservedAmount
    && ApprovedEvidence(db.audit, id, p) && ConfirmedEvidence(db.audit, id, o)
  }

  /** How the payment and order rows agree with the authorization's status. */
  ghost predicate StatusAgrees(db: Db, id: Id, a: AuthorizationRow) {
    match a.status
    case RESERVED => id !in db.payments && id !in db.orders && NoPaymentEvidence(db.audit, id)
    case CANCELLED => id !in db.payments && id !in db.orders && NoPaymentEvidence(db.audit, id)
    case PAYMENT_PENDING =>
      && PaymentOf(db, id, a) && db.payments[id].status !in {Some(APPROVED), Some(DECLINED)}
      && id !in db.orders
      && Evidence(db.audit, id, PaymentResulted(APPROVED)) == None && Evidence(db.audit, id, OrderConfirmed) == None
    case CONSUMED => PaymentOf(db, id, a) && db.payments[id].status == Some(APPROVED) && OrderOf(db, id, a)
    case FAILED => PaymentOf(db, id, a) && db.payments[id].status == Some(DECLINED) && id !in db.orders
  }

  ghost predicate RowsAgree(db: Db, id: Id) {
    if id in db.authorizations then
      Authorised(db, id, db.authorizations[id]) && StatusAgrees(db, id, db.authorizations[id])
    else
      && id !in db.payments && id !in db.orders
      && Evidence(db.audit, id, AuthorizationReserved) == None && NoPaymentEvidence(db.audit, id)
  }

  ghost predicate UniqueAttempts(payments: map<Id, PaymentRow>) {
    forall j, k :: j in payments && k in payments && j != k ==>
      && payments[j].paymentAttemptId != payments[k].paymentAttemptId
      && payments[j].providerIdempotencyKey != payments[k].providerIdempotencyKey
      && (payments[j].paymentId.Some? ==> payments[j].paymentId != payments[k].paymentId)
  }

  ghost predicate RailInv(h: Hasher, db: Db) {
    && LedgerInv(h, db.audit)
    && M.ProvenMandates(h, db.mandates)
    && UniqueAttempts(db.payments)
    && forall id :: RowsAgree(db, id)
  }

  lemma InvAt(h: Hasher, db: Db, id: Id)
    requires RailInv(h, db)
    ensures M.ProvenMandates(h, db.mandates) && RowsAgree(db, id)
  {
  }

  // ---------- Frames ----------

  /** Nothing about `id` is written; shared tables only grow or evolve. */
  ghost predicate Untouched(h: Hasher, db: Db, db': Db, id: Id) {
    && (id in db.authorizations <==> id in db'.authorizations)
    && (id in db.authorizations ==> db'.authorizations[id] == db.authorizations[id])
    && (id in db.payments <==> id in db'.payments) && (id in db.payments ==> db'.payments[id] == db.payments[id])
    && (id in db.orders <==> id in db'.orders) && (id in db.orders ==> db'.orders[id] == db.orders[id])
    && forall t :: Evidence(db'.audit, id, t) == Evidence(db.audit, id, t)
  }

  ghost predicate SharedGrow(h: Hasher, db: Db, db': Db) {
    && M.Evolves(h, db.mandates, db'.mandates)
    && db.agents.Keys <= db'.agents.Keys
    && forall c :: c in db.checkouts ==> c in db'.checkouts && db'.checkouts[c] == db.checkouts[c]
  }

  lemma UntouchedAgrees(h: Hasher, db: Db, db': Db, id: Id)
    requires RowsAgree(db, id) && Untouched(h, db, db', id) && SharedGrow(h, db, db')
    ensures RowsAgree(db', id)
  {
    if id in db.authorizations {
      var a := db.authorizations[id];
      assert Authorised(db, id, a) && StatusAgrees(db, id, a);
      assert Authorised(db', id, a);
    }
  }

  lemma SharedSame(h: Hasher, db: Db, db': Db)
    requires M.ProvenMandates(h, db.mandates)
    requires db'.mandates == db.mandates && db'.agents == db.agents && db'.checkouts == db.checkouts
    ensures SharedGrow(h, db, db')
  {
  }

  // ---------- claim ----------

  /** In a reachable state a row found by a claim is well-formed and agrees with the status. */
  lemma ExistingClaimConsistent(db: Db, id: Id)
    requires RowsAgree(db, id) && id in db.authorizations
    ensures ExistingClaim(db.payments, id, db.authorizations[id].status) !in {Err(Inconsistent), Err(MalformedRow)}
  {
    hide Evidence;
  }

  lemma ClaimedRowsAgree(h: Hasher, db: Db, c: ClaimInput)
    requires h.CollisionFree() && LedgerInv(h, db.audit) && RowsAgree(db, c.authorizationId)
    requires Claim(h, db, c).0.Ok? && Claim(h, db, c).0.value.Claimed?
    ensures RowsAgree(Claim(h, db, c).1, c.authorizationId)
  {
    hide LedgerInv, Evidence, Log, BindingsHold;
    LogEvidence(h, db.audit, AttemptStarted(c, db.authorizations[c.authorizationId]), c.eventId);
  }

  lemma ClaimLeavesOthers(h: Hasher, db: Db, c: ClaimInput, other: Id)
    requires h.CollisionFree() && LedgerInv(h, db.audit) && M.ProvenMandates(h, db.mandates) && RowsAgree(db, other)
    requires Claim(h, db, c).0.Ok? && Claim(h, db, c).0.value.Claimed? && other != c.authorizationId
    ensures RowsAgree(Claim(h, db, c).1, other)
  {
    hide LedgerInv, Evidence, Log, BindingsHold, RowsAgree;
    LogEvidence(h, db.audit, AttemptStarted(c, db.authorizations[c.authorizationId]), c.eventId);
    SharedSame(h, db, Claim(h, db, c).1);
    UntouchedAgrees(h, db, Claim(h, db, c).1, other);
  }

  lemma NewClaimAgrees(h: Hasher, db: Db, c: ClaimInput)
    requires h.CollisionFree() && RailInv(h, db)
    requires Claim(h, db, c).0.Ok? && Claim(h, db, c).0.value.Claimed?
    ensures RailInv(h, Claim(h, db, c).1) && SharedGrow(h, db, Claim(h, db, c).1)
  {
    hide LedgerInv, Log, BindingsHold, RowsAgree;
    SharedSame(h, db, Claim(h, db, c).1);
    LogEvidence(h, db.audit, AttemptStarted(c, db.authorizations[c.authorizationId]), c.eventId);
    forall other ensures RowsAgree(Claim(h, db, c).1, other) {
      if other != c.authorizationId { ClaimLeavesOthers(h, db, c, other); } else { ClaimedRowsAgree(h, db, c); }
    }
  }

  /** What `claim` does in a reachable state: the inconsistent-row errors cannot occur. */
  lemma ClaimKeeps(h: Hasher, db: Db, c: ClaimInput)
    requires h.CollisionFree() && RailInv(h, db)
    ensures var (r, db') := Claim(h, db, c);
      && RailInv(h, db') && SharedGrow(h, db, db')
      && r != Err(Inconsistent) && r != Err(MalformedRow)
      && (r.Err? || r.value.Completed? ==> db' == db)
  {
    hide RailInv, RowsAgree, BindingsHold, Log, ExistingClaim, Claim, SharedGrow;
    InvAt(h, db, c.authorizationId);
    if c.authorizationId in db.authorizations { ExistingClaimConsistent(db, c.authorizationId); }
    UnclaimedAnswers(h, db, c);
    if Claim(h, db, c).0.Ok? && Claim(h, db, c).0.value.Claimed? { NewClaimAgrees(h, db, c); }
    else { SharedSame(h, db, db); }
  }

  /** A claim that does not start an attempt writes nothing, and fails as its row's state says. */
  lemma UnclaimedAnswers(h: Hasher, db: Db, c: ClaimInput)
    requires c.authorizationId in db.authorizations ==>
      ExistingClaim(db.payments, c.authorizationId, db.authorizations[c.authorizationId].status) !in {Err(Inconsistent), Err(MalformedRow)}
    ensures var (r, db') := Claim(h, db, c);
      && (r.Err? || r.value.Completed? ==> db' == db)
      && r != Err(Inconsistent) && r != Err(MalformedRow)
  {
    hide BindingsHold, Log, ExistingClaim, AttemptTaken;
  }

  // ---------- persistResult ----------

  lemma OwnerUnique(db: Db, i: Id, j: Id, attemptId: Id)
    requires UniqueAttempts(db.payments) && OwnsAttempt(db, i, attemptId) && OwnsAttempt(db, j, attemptId)
    ensures i == j
  {
  }

  /** The state after the result is written and logged, before any order is made. */
  ghost function ResultWritten(h: Hasher, db: Db, id: Id, p: PersistInput): Db
    requires id in db.payments && id in db.authorizations
    requires Log(h, db.audit, ResultEvent(id, db.authorizations[id], db.payments[id], p), p.resultEventId).Ok?
  {
    var a, payment := db.authorizations[id], db.payments[id];
    db.(payments := db.payments[id := WithResult(payment, p.result)],
        authorizations := db.authorizations[id := a.(status := AuthorizationStatusFor(p.result))],
        audit := Log(h, db.audit, ResultEvent(id, a, payment, p), p.resultEventId).value.audit)
  }

  lemma UniqueAfterWrite(payments: map<Id, PaymentRow>, id: Id, result: PaymentResult)
    requires UniqueAttempts(payments) && id in payments && !PaymentIdTaken(payments, id, result.PaymentId())
    ensures UniqueAttempts(payments[id := WithResult(payments[id], result)])
  {
  }

  lemma OpenResultAgrees(h: Hasher, db: Db, id: Id, p: PersistInput)
    requires h.CollisionFree() && RailInv(h, db) && id in db.payments
    requires BindsTo(db.payments[id], p.result) && WriteResult(h, db, id, p).Ok? && !p.result.Approved?
    ensures RailInv(h, WriteResult(h, db, id, p).value)
  {
    hide LedgerInv, Evidence, Log, RowsAgree, SharedGrow;
    var payment, a := db.payments[id], db.authorizations[id];
    LogEvidence(h, db.audit, ResultEvent(id, a, payment, p), p.resultEventId);
    UniqueAfterWrite(db.payments, id, p.result);
    var db' := ResultWritten(h, db, id, p);
    SharedSame(h, db, db');
    forall other ensures RowsAgree(db', other) {
      InvAt(h, db, other);
      if other != id { UntouchedAgrees(h, db, db', other); }
      else { OpenRowAgrees(h, db, db', id, p); }
    }
  }

  lemma OpenRowAgrees(h: Hasher, db: Db, db': Db, id: Id, p: PersistInput)
    requires RowsAgree(db, id) && SharedGrow(h, db, db') && id in db.payments && id in db.authorizations
    requires BindsTo(db.payments[id], p.result) && !p.result.Approved? && db.authorizations[id].status == PAYMENT_PENDING
    requires db' == db.(payments := db.payments[id := WithResult(db.payments[id], p.result)], audit := db'.audit,
      authorizations := db.authorizations[id := db.authorizations[id].(status := AuthorizationStatusFor(p.result))])
    requires forall t :: t in {AuthorizationReserved, PaymentAttemptStarted, PaymentResulted(APPROVED), OrderConfirmed} ==>
      Evidence(db'.audit, id, t) == Evidence(db.audit, id, t)
    ensures RowsAgree(db', id)
  {
    hide Evidence;
    WriteReadsBack(db.payments[id], p.result);
  }

  /** The audit tables after the approval and after the order confirmation, and their evidence. */
  lemma ApprovalEvidence(h: Hasher, db: Db, id: Id, p: PersistInput)
    requires h.CollisionFree() && RailInv(h, db) && id in db.payments && p.result.Approved?
    requires BindsTo(db.payments[id], p.result) && WriteResult(h, db, id, p).Ok?
    ensures var audit, audit' := db.audit, WriteResult(h, db, id, p).value.audit;
      && LedgerInv(h, audit')
      && (forall s, t :: s != id ==> Evidence(audit', s, t) == Evidence(audit, s, t))
      && Evidence(audit', id, AuthorizationReserved) == Evidence(audit, id, AuthorizationReserved)
      && Evidence(audit', id, PaymentAttemptStarted) == Evidence(audit, id, PaymentAttemptStarted)
      && ApprovedEvidence(audit', id, WithResult(db.payments[id], p.result))
      && ConfirmedEvidence(audit', id, WriteResult(h, db, id, p).value.orders[id])
  {
    hide LedgerInv, Evidence, Log;
    var payment, a := db.payments[id], db.authorizations[id];
    assert RowsAgree(db, id);
    LogEvidence(h, db.audit, ResultEvent(id, a, payment, p), p.resultEventId);
    var db1 := ResultWritten(h, db, id, p);
    LogEvidence(h, db1.audit, OrderEvent(h, id, db1.authorizations[id], payment, db.checkouts[a.checkoutId], p), p.orderEventId);
  }

  lemma ApprovedResultAgrees(h: Hasher, db: Db, id: Id, p: PersistInput)
    requires h.CollisionFree() && RailInv(h, db) && id in db.payments
    requires BindsTo(db.payments[id], p.result) && WriteResult(h, db, id, p).Ok? && p.result.Approved?
    ensures RailInv(h, WriteResult(h, db, id, p).value)
  {
    hide LedgerInv, Evidence, Log, ApprovedEvidence, ConfirmedEvidence, RowsAgree, SharedGrow;
    ApprovalEvidence(h, db, id, p);
    UniqueAfterWrite(db.payments, id, p.result);
    var db' := WriteResult(h, db, id, p).value;
    SharedSame(h, db, db');
    forall other ensures RowsAgree(db', other) {
      InvAt(h, db, other);
      if other != id { UntouchedAgrees(h, db, db', other); } else { ApprovedRowAgrees(h, db, id, p); }
    }
  }

  lemma ApprovedRowAgrees(h: Hasher, db: Db, id: Id, p: PersistInput)
    requires h.CollisionFree() && RailInv(h, db) && id in db.payments
    requires BindsTo(db.payments[id], p.result) && WriteResult(h, db, id, p).Ok? && p.result.Approved?
    ensures RowsAgree(WriteResult(h, db, id, p).value, id)
  {
    hide LedgerInv, Evidence, Log, ApprovedEvidence, ConfirmedEvidence;
    InvAt(h, db, id);
    WriteReadsBack(db.payments[id], p.result);
    ApprovalEvidence(h, db, id, p);
  }

  ghost predicate HoldsResult(db: Db, id: Id, result: PaymentResult) {
    id in db.payments && ResultShape(db.payments[id]) && ResultFromRow(db.payments[id]) == Some(result)
  }

  lemma PersistForKeeps(h: Hasher, db: Db, id: Id, p: PersistInput)
    requires h.CollisionFree() && RailInv(h, db) && id in db.payments
    ensures var (r, db') := PersistFor(h, db, id, p);
      && RailInv(h, db') && SharedGrow(h, db, db')
      && r != Err(MalformedRow) && r != Err(MissingCheckout)
      && (r.Err? ==> db' == db)
      && (r.Ok? ==> HoldsResult(db', id, p.result))
  {
    hide RailInv, RowsAgree, WriteResult, ResultFromRow, ResultShape;
    InvAt(h, db, id);
    ShapeOf(db, id);
    WriteResultErrors(h, db, id, p);
    if BindsTo(db.payments[id], p.result) {
      WriteReadsBack(db.payments[id], p.result);
      WriteResultKeeps(h, db, id, p);
    }
    SharedSame(h, db, PersistFor(h, db, id, p).1);
  }

  lemma ShapeOf(db: Db, id: Id)
    requires RowsAgree(db, id) && id in db.payments
    ensures ResultShape(db.payments[id])
  {
  }

  lemma WriteResultKeeps(h: Hasher, db: Db, id: Id, p: PersistInput)
    requires h.CollisionFree() && RailInv(h, db) && id in db.payments && BindsTo(db.payments[id], p.result)
    ensures WriteResult(h, db, id, p).Ok? ==> RailInv(h, WriteResult(h, db, id, p).value)
  {
    hide RailInv, WriteResult;
    if WriteResult(h, db, id, p).Ok? {
      if p.result.Approved? { ApprovedResultAgrees(h, db, id, p); } else { OpenResultAgrees(h, db, id, p); }
    }
  }

  lemma WriteResultErrors(h: Hasher, db: Db, id: Id, p: PersistInput)
    requires RowsAgree(db, id) && id in db.payments
    ensures var r := WriteResult(h, db, id, p);
      && (r.Err? ==> r.error !in {MalformedRow, MissingCheckout})
      && (r.Ok? ==>
           && r.value.mandates == db.mandates && r.value.agents == db.agents && r.value.checkouts == db.checkouts
           && r.value.payments == db.payments[id := WithResult(db.payments[id], p.result)])
  {
    hide Evidence, Log;
  }

  /** What `persistResult` does in a reachable state: on success the row holds exactly the result. */
  lemma PersistKeeps(h: Hasher, db: Db, p: PersistInput)
    requires h.CollisionFree() && RailInv(h, db)
    ensures var (r, db') := Persist(h, db, p);
      && RailInv(h, db') && SharedGrow(h, db, db')
      && r != Err(MalformedRow) && r != Err(MissingCheckout)
      && (r.Err? ==> db' == db)
      && (r.Ok? ==> exists id :: OwnsAttempt(db, id, p.paymentAttemptId) && HoldsResult(db', id, p.result))
  {
    hide PersistFor, RailInv;
    if id :| OwnsAttempt(db, id, p.paymentAttemptId) && Persist(h, db, p) == PersistFor(h, db, id, p) {
      PersistForKeeps(h, db, id, p);
    } else {
      InvAt(h, db, "");
      SharedSame(h, db, db);
    }
  }

  /** How a result that is not written is answered: as a repetition, a mismatch or a conflict. */
  function Unwritten(row: PaymentRow, result: PaymentResult): Result<PaymentResult, RailError>
    requires ResultShape(row)
  {
    if !BindsTo(row, result) then Err(BindingMismatch)
    else if ResultFromRow(row) == Some(result) then Ok(result)
    else Err(ResultConflict)
  }

  lemma PersistForCases(h: Hasher, db: Db, id: Id, p: PersistInput)
    requires id in db.payments && ResultShape(db.payments[id])
    ensures PersistFor(h, db, id, p) ==
      if !Writes(db.payments[id], p.result) then (Unwritten(db.payments[id], p.result), db)
      else if WriteResult(h, db, id, p).Err? then (Err(WriteResult(h, db, id, p).error), db)
      else (Ok(p.result), WriteResult(h, db, id, p).value)
  {
    hide WriteResult, ResultShape;
  }

  /** A row that may still be written belongs to a pending authorization. */
  lemma WritableIsPending(db: Db, id: Id, result: PaymentResult)
    requires RowsAgree(db, id) && id in db.payments && ResultShape(db.payments[id]) && Writes(db.payments[id], result)
    ensures id in db.authorizations && db.authorizations[id].status == PAYMENT_PENDING
  {
    hide Evidence;
  }

  lemma PendingWriteErrors(h: Hasher, db: Db, id: Id, p: PersistInput)
    requires RowsAgree(db, id) && id in db.payments && id in db.authorizations && db.authorizations[id].status == PAYMENT_PENDING
    ensures WriteResult(h, db, id, p).Err? ==>
      WriteResult(h, db, id, p).error == DuplicateKey || WriteResult(h, db, id, p).error.LedgerFailure?
  {
    hide Evidence, Log;
  }

  /** `persistResult` in a reachable state: the attempt's row is rewritten exactly when the result binds to it
      and climbs, and then only an id taken elsewhere or the ledger can stop it; otherwise nothing is written
      at all. No other row ever is. */
  lemma PersistWritesExactly(h: Hasher, db: Db, id: Id, p: PersistInput)
    requires h.CollisionFree() && RailInv(h, db) && OwnsAttempt(db, id, p.paymentAttemptId)
    ensures ResultShape(db.payments[id])
    ensures var row := db.payments[id];
      var (r, db') := Persist(h, db, p);
      if !Writes(row, p.result) then r == Unwritten(row, p.result) && db' == db
      else if r.Ok? then r.value == p.result && db'.payments == db.payments[id := WithResult(row, p.result)]
      else db' == db && (r.error == DuplicateKey || r.error.LedgerFailure?)
  {
    hide RailInv, RowsAgree, WriteResult, PersistFor, ResultShape, Writes, Unwritten;
    InvAt(h, db, id);
    ShapeOf(db, id);
    UniqueOwner(h, db, id, p);
    PersistForCases(h, db, id, p);
    WriteResultErrors(h, db, id, p);
    if Writes(db.payments[id], p.result) {
      WritableIsPending(db, id, p.result);
      PendingWriteErrors(h, db, id, p);
    }
  }

  lemma UniqueOwner(h: Hasher, db: Db, id: Id, p: PersistInput)
    requires RailInv(h, db) && OwnsAttempt(db, id, p.paymentAttemptId)
    ensures Persist(h, db, p) == PersistFor(h, db, id, p)
  {
    hide RowsAgree, LedgerInv, PersistFor, M.ProvenMandates;
    forall other | OwnsAttempt(db, other, p.paymentAttemptId) ensures other == id {
      OwnerUnique(db, other, id, p.paymentAttemptId);
    }
  }
}
