/** What becomes of a payment attempt, on the columns of its row: every open attempt can be resolved, and
    exactly which results are refused (payments/store.ts). */
module PaymentResolution {
  import opened Common
  import opened AuditEvents
  import opened Ledger
  import opened PaymentResults
  import opened Rail
  import opened RailInvariant
  import opened PaymentProcess

  /** The payment id a result brings, if any. */
  function IdOf(result: PaymentResult): Option<Id> {
    match result
    case Approved(_, _, _, paymentId, _) => Some(paymentId)
    case Declined(_, _, _, paymentId, _) => paymentId
    case TimedOut(_, _, _) => None
    case Unknown(_, _, _, paymentId) => paymentId
  }

  /** The row's result columns read exactly this result. */
  predicate Shows(row: PaymentRow, result: PaymentResult) {
    && row.paymentId == IdOf(result) && row.occurredAt == Some(result.occurredAt)
    && match result
       case Approved(_, _, _, _, reference) =>
         row.status == Some(APPROVED) && row.providerReference == reference && row.declineCode == None
       case Declined(_, _, _, _, code) =>
         row.status == Some(DECLINED) && row.providerReference == None && row.declineCode == Some(code)
       case TimedOut(_, _, _) => row.status == Some(TIMEOUT) && row.providerReference == None && row.declineCode == None
       case Unknown(_, _, _, _) => row.status == Some(UNKNOWN) && row.providerReference == None && row.declineCode == None
  }

  /** The row has no result yet; or an open one, and the incoming one is final and names no other payment. */
  predicate Awaits(row: PaymentRow, result: PaymentResult) {
    || row.status == None
    || (&& (row.status == Some(TIMEOUT) || row.status == Some(UNKNOWN))
        && (result.Approved? || result.Declined?)
        && (row.paymentId.Some? && IdOf(result).Some? ==> row.paymentId == IdOf(result)))
  }

  function ResultKey(attemptId: Id, result: PaymentResult): string {
    "payment-result:" + attemptId + ":" +
    match result
    case Approved(_, _, _, _, _) => "APPROVED"
    case Declined(_, _, _, _, _) => "DECLINED"
    case TimedOut(_, _, _) => "TIMEOUT"
    case Unknown(_, _, _, _) => "UNKNOWN"
  }

  ghost predicate InLedger(audit: seq<AuditRow>, key: string, eventId: Id) {
    exists i :: 0 <= i < |audit| && (audit[i].deduplicationKey == Some(key) || audit[i].event.eventId == eventId)
  }

  ghost predicate OrderObstructed(h: Hasher, db: Db, id: Id, p: PersistInput)
    requires id in db.payments && id in db.authorizations
  {
    || InLedger(db.audit, "order:" + id, p.orderEventId)
    || p.orderEventId == p.resultEventId
    || exists k :: k in db.orders &&
         (k == id || db.orders[k].orderId == StableIdentifier(h, "order", id)
          || db.orders[k].receiptId == StableIdentifier(h, "receipt", id) || Some(db.orders[k].paymentId) == IdOf(p.result)
          || db.orders[k].checkoutId == db.authorizations[id].checkoutId || db.orders[k].auditEventId == p.orderEventId
          || db.orders[k].idempotencyKey == db.payments[id].providerIdempotencyKey)
  }

  /** A unique column that another row holds already stands in the way of this write. */
  ghost predicate Obstructed(h: Hasher, db: Db, id: Id, p: PersistInput)
    requires id in db.payments && id in db.authorizations
  {
    || (IdOf(p.result).Some? && exists k :: k in db.payments && k != id && db.payments[k].paymentId == IdOf(p.result))
    || InLedger(db.audit, ResultKey(p.paymentAttemptId, p.result), p.resultEventId)
    || (p.result.Approved? && OrderObstructed(h, db, id, p))
  }

  /** The tables after a result is written: its row shows it, an approval consumes the authorization and has its
      order, a refusal fails it, anything else leaves it pending; nothing else changes. */
  ghost predicate Recorded(db: Db, db': Db, id: Id, result: PaymentResult)
    requires id in db.payments && id in db.authorizations
  {
    && db'.payments.Keys == db.payments.Keys && db'.authorizations.Keys == db.authorizations.Keys
    && Shows(db'.payments[id], result)
    && db'.payments[id].paymentAttemptId == db.payments[id].paymentAttemptId
    && db'.payments[id].providerIdempotencyKey == db.payments[id].providerIdempotencyKey
    && db'.authorizations[id].reservedAmount == db.authorizations[id].reservedAmount
    && (forall k :: k in db.payments && k != id ==> db'.payments[k] == db.payments[k])
    && (forall k :: k in db.authorizations && k != id ==> db'.authorizations[k] == db.authorizations[k])
    && (forall k :: k != id ==> (k in db'.orders <==> k in db.orders))
    && (forall k :: k in db.orders && k != id ==> db'.orders[k] == db.orders[k])
    && if result.Approved? then
         && db'.authorizations[id].status == AuthorizationStatus.CONSUMED
         && id in db'.orders && db'.orders[id].total == db.authorizations[id].reservedAmount
         && db'.orders[id].paymentId == result.paymentId && db'.orders[id].authorizationId == id
         && db'.orders[id].checkoutId == db.authorizations[id].checkoutId && db'.orders[id].merchantId == db.authorizations[id].merchantId
       else
         && id !in db'.orders
         && db'.authorizations[id].status == if result.Declined? then AuthorizationStatus.FAILED else PAYMENT_PENDING
  }

  lemma LogUnobstructed(h: Hasher, audit: seq<AuditRow>, input: AppendInput, eventId: Id)
    requires h.CollisionFree() && LedgerInv(h, audit) && input.deduplicationKey.Some?
    requires !InLedger(audit, input.deduplicationKey.value, eventId)
    ensures Log(h, audit, input, eventId).Ok? && LedgerInv(h, Log(h, audit, input, eventId).value.audit)
    ensures var row := NextRow(h, audit, input, eventId);
      && Log(h, audit, input, eventId).value == Rail.Logged(row.event, audit + [row])
      && row.deduplicationKey == input.deduplicationKey && row.event.eventId == eventId
  {
    AppendOutcome(h, audit, input, eventId);
    AppendKeepsInv(h, audit, input, eventId);
  }

  lemma KeysDiffer(id: Id, attemptId: Id, result: PaymentResult)
    ensures "order:" + id != ResultKey(attemptId, result)
  {
    assert ("order:" + id)[0] == 'o' && ResultKey(attemptId, result)[0] == 'p';
  }

  /** The write of an unobstructed result into a pending authorization's row goes through. */
  lemma UnobstructedWrites(h: Hasher, db: Db, id: Id, p: PersistInput)
    requires h.CollisionFree() && LedgerInv(h, db.audit) && RowsAgree(db, id)
    requires OwnsAttempt(db, id, p.paymentAttemptId) && id in db.authorizations
    requires db.authorizations[id].status == PAYMENT_PENDING && !Obstructed(h, db, id, p)
    ensures WriteResult(h, db, id, p).Ok?
  {
    hide LedgerInv, Evidence, Log, NextRow, StableIdentifier, InLedger, Obstructed, OrderObstructed;
    var payment, a := db.payments[id], db.authorizations[id];
    ResultLogged(h, db, id, p);
    if p.result.Approved? { OrderLogged(h, db, id, p); }
  }

  lemma ResultLogged(h: Hasher, db: Db, id: Id, p: PersistInput)
    requires h.CollisionFree() && LedgerInv(h, db.audit)
    requires OwnsAttempt(db, id, p.paymentAttemptId) && id in db.authorizations && !Obstructed(h, db, id, p)
    ensures !PaymentIdTaken(db.payments, id, p.result.PaymentId())
    ensures var input := ResultEvent(id, db.authorizations[id], db.payments[id], p);
      && Log(h, db.audit, input, p.resultEventId).Ok? && LedgerInv(h, Log(h, db.audit, input, p.resultEventId).value.audit)
      && Log(h, db.audit, input, p.resultEventId).value.audit == db.audit + [NextRow(h, db.audit, input, p.resultEventId)]
      && input.deduplicationKey == Some(ResultKey(p.paymentAttemptId, p.result))
  {
    hide LedgerInv, Log, NextRow, InLedger, OrderObstructed;
    LogUnobstructed(h, db.audit, ResultEvent(id, db.authorizations[id], db.payments[id], p), p.resultEventId);
  }

  lemma OrderLogged(h: Hasher, db: Db, id: Id, p: PersistInput)
    requires h.CollisionFree() && LedgerInv(h, db.audit) && RowsAgree(db, id)
    requires OwnsAttempt(db, id, p.paymentAttemptId) && id in db.authorizations
    requires db.authorizations[id].status == PAYMENT_PENDING && !Obstructed(h, db, id, p) && p.result.Approved?
    requires Log(h, db.audit, ResultEvent(id, db.authorizations[id], db.payments[id], p), p.resultEventId).Ok?
    ensures ApprovedOrder(h, ResultWritten(h, db, id, p), id, db.payments[id], p).Ok?
  {
    hide LedgerInv, Evidence, Log, NextRow, StableIdentifier;
    var payment, a, db1 := db.payments[id], db.authorizations[id], ResultWritten(h, db, id, p);
    ResultLogged(h, db, id, p);
    KeysDiffer(id, p.paymentAttemptId, p.result);
    var row := NextRow(h, db.audit, ResultEvent(id, a, payment, p), p.resultEventId);
    NextRowColumns(h, db.audit, ResultEvent(id, a, payment, p), p.resultEventId);
    NotInLonger(db.audit, row, "order:" + id, p.orderEventId);
    LogUnobstructed(h, db1.audit, OrderEvent(h, id, db1.authorizations[id], payment, db.checkouts[a.checkoutId], p), p.orderEventId);
    NextRowColumns(h, db1.audit, OrderEvent(h, id, db1.authorizations[id], payment, db.checkouts[a.checkoutId], p), p.orderEventId);
  }

  lemma NextRowColumns(h: Hasher, audit: seq<AuditRow>, input: AppendInput, eventId: Id)
    ensures NextRow(h, audit, input, eventId).deduplicationKey == input.deduplicationKey
    ensures NextRow(h, audit, input, eventId).event.eventId == eventId
  {
  }

  lemma NotInLonger(audit: seq<AuditRow>, row: AuditRow, key: string, eventId: Id)
    requires !InLedger(audit, key, eventId) && row.deduplicationKey != Some(key) && row.event.eventId != eventId
    ensures !InLedger(audit + [row], key, eventId)
  {
  }

  /** What a successful write leaves. */
  lemma WrittenColumns(h: Hasher, db: Db, id: Id, p: PersistInput)
    requires RowsAgree(db, id) && id in db.payments && id in db.authorizations && WriteResult(h, db, id, p).Ok?
    requires BindsTo(db.payments[id], p.result)
    ensures Recorded(db, WriteResult(h, db, id, p).value, id, p.result)
  {
    hide Log, Evidence, StableIdentifier;
  }

  lemma OpenIsPending(db: Db, id: Id, result: PaymentResult)
    requires RowsAgree(db, id) && id in db.payments
    ensures id in db.authorizations && ResultShape(db.payments[id])
    ensures db.payments[id].authorizationId == id && db.payments[id].amount == db.authorizations[id].reservedAmount
    ensures db.payments[id].status in {None, Some(TIMEOUT), Some(UNKNOWN)} <==> db.authorizations[id].status == PAYMENT_PENDING
  {
    hide Evidence;
  }

  /** `persistResult` in terms of the row's columns. */
  lemma PersistColumns(h: Hasher, db: Db, id: Id, p: PersistInput)
    requires id in db.payments && ResultShape(db.payments[id])
    ensures var row := db.payments[id];
      PersistFor(h, db, id, p) ==
        if p.result.authorizationId != row.authorizationId || p.result.amount != row.amount then (Err(BindingMismatch), db)
        else if Shows(row, p.result) then (Ok(p.result), db)
        else if !Awaits(row, p.result) then (Err(ResultConflict), db)
        else if WriteResult(h, db, id, p).Err? then (Err(WriteResult(h, db, id, p).error), db)
        else (Ok(p.result), WriteResult(h, db, id, p).value)
  {
    hide WriteResult;
  }

  /** Exactly how a result for an attempt is answered in a reachable state: as a mismatch, a repetition, a
      conflict with what the row shows, or by recording it. What the row awaits is recorded unless a unique
      column stands in the way. */
  lemma PersistAnswersExactly(h: Hasher, agents: map<Id, AgentRow>, credentials: map<Id, CredentialRow>, steps: seq<Step>,
                              id: Id, p: PersistInput)
    requires h.CollisionFree() && OwnsAttempt(Run(h, Fresh(agents, credentials), steps).db, id, p.paymentAttemptId)
    ensures var db := Run(h, Fresh(agents, credentials), steps).db;
      var row, (r, db') := db.payments[id], Persist(h, db, p);
      && id in db.authorizations && row.authorizationId == id && row.amount == db.authorizations[id].reservedAmount
      && (row.status in {None, Some(TIMEOUT), Some(UNKNOWN)} <==> db.authorizations[id].status == PAYMENT_PENDING)
      && if p.result.authorizationId != id || p.result.amount != row.amount then r == Err(BindingMismatch) && db' == db
         else if Shows(row, p.result) then r == Ok(p.result) && db' == db
         else if !Awaits(row, p.result) then r == Err(ResultConflict) && db' == db
         else if r.Ok? then r.value == p.result && Recorded(db, db', id, p.result)
         else (r.error == DuplicateKey || r.error.LedgerFailure?) && db' == db && Obstructed(h, db, id, p)
  {
    hide RailInv, RowsAgree, WriteResult, PersistFor, HistoryKept, Run, Obstructed, Recorded, Shows, Awaits;
    FreshInv(h, agents, credentials);
    RunKeeps(h, Fresh(agents, credentials), steps);
    var db := Run(h, Fresh(agents, credentials), steps).db;
    AnswersIn(h, db, id, p);
  }

  lemma AnswersIn(h: Hasher, db: Db, id: Id, p: PersistInput)
    requires h.CollisionFree() && RailInv(h, db) && OwnsAttempt(db, id, p.paymentAttemptId)
    ensures var row, (r, db') := db.payments[id], Persist(h, db, p);
      && id in db.authorizations && row.authorizationId == id && row.amount == db.authorizations[id].reservedAmount
      && (row.status in {None, Some(TIMEOUT), Some(UNKNOWN)} <==> db.authorizations[id].status == PAYMENT_PENDING)
      && if p.result.authorizationId != id || p.result.amount != row.amount then r == Err(BindingMismatch) && db' == db
         else if Shows(row, p.result) then r == Ok(p.result) && db' == db
         else if !Awaits(row, p.result) then r == Err(ResultConflict) && db' == db
         else if r.Ok? then r.value == p.result && Recorded(db, db', id, p.result)
         else (r.error == DuplicateKey || r.error.LedgerFailure?) && db' == db && Obstructed(h, db, id, p)
  {
    hide RowsAgree, WriteResult, PersistFor, Persist, Obstructed, Recorded, Shows, LedgerInv, UniqueAttempts, M.ProvenMandates;
    InvAt(h, db, id);
    OpenIsPending(db, id, p.result);
    UniqueOwner(h, db, id, p);
    PersistColumns(h, db, id, p);
    if BindsTo(db.payments[id], p.result) && Awaits(db.payments[id], p.result) {
      PendingWriteErrors(h, db, id, p);
      if WriteResult(h, db, id, p).Ok? { WrittenColumns(h, db, id, p); }
      else if !Obstructed(h, db, id, p) { UnobstructedWrites(h, db, id, p); }
    }
  }

  /** Nothing stays open for good: whenever an authorization is pending, reconciling its one attempt under its own
      key with an approval or a refusal of the reserved amount ends in CONSUMED with its order, or in FAILED,
      unless the result names another payment than the row does or a unique column stands in the way. */
  lemma PendingCanBeResolved(h: Hasher, agents: map<Id, AgentRow>, credentials: map<Id, CredentialRow>, steps: seq<Step>,
                             id: Id, key: Id, p: PersistInput)
    requires h.CollisionFree() && (p.result.Approved? || p.result.Declined?)
    requires var db := Run(h, Fresh(agents, credentials), steps).db;
      && id in db.authorizations && db.authorizations[id].status == PAYMENT_PENDING
      && p.result.authorizationId == id && p.result.amount == db.authorizations[id].reservedAmount
    ensures var db := Run(h, Fresh(agents, credentials), steps).db;
      && id in db.payments
      && PendingAttempt(db.authorizations, db.payments, id)
         == Ok((db.payments[id].paymentAttemptId, db.payments[id].providerIdempotencyKey))
    ensures var db := Run(h, Fresh(agents, credentials), steps).db;
      var row := db.payments[id];
      var q := p.(paymentAttemptId := row.paymentAttemptId);
      var (r, db') := PersistReconciled(h, db, PendingAttempt(db.authorizations, db.payments, id), row.providerIdempotencyKey, p);
      row.paymentId == None || IdOf(p.result) == None || row.paymentId == IdOf(p.result) ==>
        if r.Ok? then Recorded(db, db', id, p.result)
        else (r.error == DuplicateKey || r.error.LedgerFailure?) && db' == db && Obstructed(h, db, id, q)
  {
    hide RailInv, RowsAgree, HistoryKept, Run, Obstructed, Recorded, Persist, Shows;
    FreshInv(h, agents, credentials);
    RunKeeps(h, Fresh(agents, credentials), steps);
    var db := Run(h, Fresh(agents, credentials), steps).db;
    InvAt(h, db, id);
    AgreedRow(db, id);
    var q := p.(paymentAttemptId := db.payments[id].paymentAttemptId);
    AnswersIn(h, db, id, q);
    FinalNotShown(db.payments[id], p.result);
  }

  lemma FinalNotShown(row: PaymentRow, result: PaymentResult)
    requires row.status in {None, Some(TIMEOUT), Some(UNKNOWN)} && (result.Approved? || result.Declined?)
    ensures !Shows(row, result)
  {
  }
}
