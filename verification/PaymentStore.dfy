/** The payment store's transactions as they run: rows are updated step by step, and a failure rolls
    every write of the transaction back (payments/store.ts). Each is proved equal to its specification. */
module PaymentStores {
  import opened Common
  import opened AuditEvents
  import opened Ledger
  import opened PaymentResults
  import opened RailInvariant
  import M = Mandates
  import R = Rail

  class PaymentStore {
    const h: Hasher
    const ledger: AuditRepository
    var mandates: map<Id, M.MandateRow>
    var agents: map<Id, R.AgentRow>
    var credentials: map<Id, R.CredentialRow>
    var checkouts: map<Id, R.CheckoutRow>
    var authorizations: map<Id, R.AuthorizationRow>
    var payments: map<Id, PaymentRow>
    var orders: map<Id, R.OrderRow>

    function Rows(): R.Db
      reads this, ledger
    {
      R.Db(mandates, agents, credentials, checkouts, authorizations, payments, orders, ledger.rows)
    }

    /** The unique constraints of the tables. */
    ghost predicate Valid()
      reads this, ledger
    {
      ledger.Valid() && ledger.h == h && UniqueAttempts(payments)
    }

    constructor (h: Hasher)
      ensures Valid() && fresh(ledger) && this.h == h
      ensures Rows() == R.Db(map[], map[], map[], map[], map[], map[], map[], [])
    {
      this.h := h;
      ledger := new AuditRepository(h);
      mandates, agents, credentials, checkouts := map[], map[], map[], map[];
      authorizations, payments, orders := map[], map[], map[];
    }

    method Log(input: AppendInput, eventId: Id) returns (r: Result<AuditEvent, R.RailError>)
      requires Valid()
      modifies ledger
      ensures Valid()
      ensures var spec := R.Log(h, old(ledger.rows), input, eventId);
        if spec.Ok? then r == Ok(spec.value.event) && ledger.rows == spec.value.audit
        else r == Err(spec.error) && ledger.rows == old(ledger.rows)
    {
      hide UniqueAttempts, UniqueRows, Appended, SubjectEvents;
      var appended := ledger.Append(input, eventId, SubjectEvents(ledger.rows, input.subjectId));
      if appended.Err? { return Err(R.LedgerFailure(appended.error)); }
      return Ok(appended.value);
    }

    method Claim(c: R.ClaimInput) returns (r: Result<R.PaymentClaim, R.RailError>)
      requires Valid()
      modifies this, ledger
      ensures Valid()
      ensures (r, Rows()) == R.Claim(h, old(Rows()), c)
    {
      var id := c.authorizationId;
      if id !in authorizations { return Err(R.NotFound); }
      var authorization := authorizations[id];
      if authorization.status != RESERVED {
        var existing := R.ExistingClaim(payments, id, authorization.status);
        if existing.Err? { return Err(existing.error); }
        if existing.value.Some? { return Ok(existing.value.value); }
        return Err(R.NotPayable);
      }
      if !R.BindingsHold(mandates, checkouts, credentials, authorization) { return Err(R.IntegrityFailure); }
      if authorization.expiresAt <= c.now {
        var existing := R.ExistingClaim(payments, id, authorization.status);
        if existing.Err? { return Err(existing.error); }
        if existing.value.Some? { return Ok(existing.value.value); }
        return Err(R.ExpiredOrClaimed);
      }
      if R.AttemptTaken(payments, id, c.paymentAttemptId, c.providerKey) { return Err(R.DuplicateKey); }
      var credentialId := mandates[authorization.mandateId].terms.credentialId;
      var logged := Log(R.AttemptStarted(c, authorization), c.eventId);
      if logged.Err? { return Err(logged.error); }
      authorizations := authorizations[id := authorization.(status := PAYMENT_PENDING)];
      payments := payments[id := R.NewPayment(c, authorization, credentialId)];
      return Ok(R.Claimed(c.paymentAttemptId, c.providerKey, id, authorization.reservedAmount));
    }

    /** `createApprovedOrder`. */
    method CreateApprovedOrder(id: Id, payment: PaymentRow, p: R.PersistInput) returns (r: Option<R.RailError>)
      requires Valid() && id in authorizations && p.result.Approved?
      modifies this`orders, ledger
      ensures Valid()
      ensures var spec := R.ApprovedOrder(h, old(Rows()), id, payment, p);
        if spec.Ok? then r == None && Rows() == spec.value else r == Some(spec.error) && orders == old(orders)
    {
      var authorization := authorizations[id];
      if authorization.checkoutId !in checkouts { return Some(R.MissingCheckout); }
      var checkout := checkouts[authorization.checkoutId];
      var event := Log(R.OrderEvent(h, id, authorization, payment, checkout, p), p.orderEventId);
      if event.Err? { return Some(event.error); }
      var order := R.NewOrder(h, id, authorization, payment, checkout, p, event.value.eventId);
      if R.OrderTaken(orders, order) { return Some(R.DuplicateKey); }
      orders := orders[id := order];
      return None;
    }

    /** The row of an attempt, as its primary-key query finds it. */
    method FindAttempt(attemptId: Id) returns (r: Option<Id>)
      ensures r.Some? ==> R.OwnsAttempt(Rows(), r.value, attemptId)
      ensures r.None? ==> forall id :: !R.OwnsAttempt(Rows(), id, attemptId)
    {
      var left := payments.Keys;
      while left != {}
        invariant left <= payments.Keys
        invariant forall id :: id in payments && payments[id].paymentAttemptId == attemptId ==> id in left
      {
        var id :| id in left;
        if payments[id].paymentAttemptId == attemptId { return Some(id); }
        left := left - {id};
      }
      return None;
    }

    method PersistResult(p: R.PersistInput) returns (r: Result<PaymentResult, R.RailError>)
      requires Valid()
      modifies this, ledger
      ensures Valid()
      ensures (r, Rows()) == R.Persist(h, old(Rows()), p)
    {
      var found := FindAttempt(p.paymentAttemptId);
      if found.None? { return Err(R.NoSuchAttempt); }
      var id := found.value;
      assert R.Persist(h, Rows(), p) == R.PersistFor(h, Rows(), id, p) by {
        forall other | R.OwnsAttempt(Rows(), other, p.paymentAttemptId) ensures other == id {
          OwnerUnique(Rows(), other, id, p.paymentAttemptId);
        }
      }
      var payment := payments[id];
      if !BindsTo(payment, p.result) { return Err(R.BindingMismatch); }
      if !ResultShape(payment) { return Err(R.MalformedRow); }
      var stored := ResultFromRow(payment);
      if stored == Some(p.result) { return Ok(p.result); }
      if stored.Some? && !CanReplace(stored.value, p.result) { return Err(R.ResultConflict); }
      var written := WriteResult(id, p);
      if written.Some? { return Err(written.value); }
      return Ok(p.result);
    }

    /** The writing half of `persistResult`; on failure the transaction's earlier writes are rolled back. */
    method WriteResult(id: Id, p: R.PersistInput) returns (r: Option<R.RailError>)
      requires Valid() && id in payments
      modifies this, ledger
      ensures Valid()
      ensures var spec := R.WriteResult(h, old(Rows()), id, p);
        if spec.Ok? then r == None && Rows() == spec.value else r == Some(spec.error) && Rows() == old(Rows())
    {
      hide R.Log, R.ApprovedOrder, UniqueRows, UniqueAttempts, WithResult, R.ResultEvent;
      var payment := payments[id];
      if id !in authorizations || authorizations[id].status != PAYMENT_PENDING { return Some(R.NotPending); }
      if R.PaymentIdTaken(payments, id, p.result.PaymentId()) { return Some(R.DuplicateKey); }
      var paymentsBefore, authorizationsBefore, rowsBefore := payments, authorizations, ledger.rows;
      var authorization := authorizations[id];
      UniqueAfterWrite(payments, id, p.result);
      payments := payments[id := WithResult(payment, p.result)];
      authorizations := authorizations[id := authorization.(status := AuthorizationStatusFor(p.result))];
      var logged := Log(R.ResultEvent(id, authorization, payment, p), p.resultEventId);
      if logged.Err? {
        payments, authorizations := paymentsBefore, authorizationsBefore;
        return Some(logged.error);
      }
      if p.result.Approved? {
        var failure := CreateApprovedOrder(id, payment, p);
        if failure.Some? {
          payments, authorizations, ledger.rows := paymentsBefore, authorizationsBefore, rowsBefore;
          return failure;
        }
      }
      return None;
    }

    /** The stored attempt and provider key of a pending authorization; it never makes new ones. */
    method LoadPendingAttempt(id: Id) returns (r: Result<(Id, Id), R.RailError>)
      ensures r.Ok? <==> id in payments && id in authorizations && authorizations[id].status == PAYMENT_PENDING
      ensures r.Ok? ==> R.OwnsAttempt(Rows(), id, r.value.0) && payments[id].providerIdempotencyKey == r.value.1
      ensures r.Err? ==> r.error == R.NotPending
    {
      if id !in payments || id !in authorizations || authorizations[id].status != PAYMENT_PENDING {
        return Err(R.NotPending);
      }
      return Ok((payments[id].paymentAttemptId, payments[id].providerIdempotencyKey));
    }

    method PersistReconciledResult(id: Id, providerKey: Id, p: R.PersistInput) returns (r: Result<PaymentResult, R.RailError>)
      requires Valid()
      modifies this, ledger
      ensures Valid()
      ensures (r, Rows()) == R.PersistReconciled(h, old(Rows()), R.PendingAttempt(old(authorizations), old(payments), id), providerKey, p)
    {
      var attempt := LoadPendingAttempt(id);
      if attempt.Err? { return Err(attempt.error); }
      if attempt.value.1 != providerKey { return Err(R.KeyMismatch); }
      r := PersistResult(p.(paymentAttemptId := attempt.value.0));
    }
  }
}
