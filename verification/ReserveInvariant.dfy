/** Reservation, cancellation and the environment's writes keep the rail's invariant. */
module ReserveInvariant {
  import opened Common
  import opened AuditEvents
  import opened Ledger
  import opened PaymentResults
  import opened Rail
  import opened RailInvariant
  import M = Mandates

  /** Writes to the shared tables alone. */
  lemma SharedWriteKeeps(h: Hasher, db: Db, db': Db)
    requires RailInv(h, db) && SharedGrow(h, db, db')
    requires db'.authorizations == db.authorizations && db'.payments == db.payments
    requires db'.orders == db.orders && db'.audit == db.audit
    ensures RailInv(h, db')
  {
    hide LedgerInv, RowsAgree, Evidence;
    forall id ensures RowsAgree(db', id) {
      InvAt(h, db, id);
      UntouchedAgrees(h, db, db', id);
    }
  }

  /** An event of any type that is no payment evidence, on any subject. */
  lemma OtherEventKeeps(h: Hasher, db: Db, input: AppendInput, eventId: Id)
    requires h.CollisionFree() && RailInv(h, db) && input.payload.OtherPayload?
    requires Log(h, db.audit, input, eventId).Ok?
    ensures RailInv(h, db.(audit := Log(h, db.audit, input, eventId).value.audit))
  {
    hide LedgerInv, RowsAgree, Evidence, Log;
    var db' := db.(audit := Log(h, db.audit, input, eventId).value.audit);
    LogEvidence(h, db.audit, input, eventId);
    SharedSame(h, db, db');
    forall id ensures RowsAgree(db', id) {
      InvAt(h, db, id);
      SameEvidenceAgrees(h, db, db', id);
    }
  }

  lemma SameEvidenceAgrees(h: Hasher, db: Db, db': Db, id: Id)
    requires RowsAgree(db, id) && SharedGrow(h, db, db')
    requires db'.authorizations == db.authorizations && db'.payments == db.payments && db'.orders == db.orders
    requires forall t :: t in {AuthorizationReserved, PaymentAttemptStarted, PaymentResulted(APPROVED), OrderConfirmed} ==>
               Evidence(db'.audit, id, t) == Evidence(db.audit, id, t)
    ensures RowsAgree(db', id)
  {
    hide Evidence;
    if id in db.authorizations { assert Authorised(db', id, db.authorizations[id]); }
  }

  lemma CancelOneKeeps(h: Hasher, db: Db, c: Cancellation, now: Instant, correlationId: Id)
    requires h.CollisionFree() && RailInv(h, db) && c.authorizationId in db.authorizations
    requires db.authorizations[c.authorizationId].status == RESERVED
    requires CancelOne(h, db, c, now, correlationId).Ok?
    ensures RailInv(h, CancelOne(h, db, c, now, correlationId).value)
  {
    hide LedgerInv, Evidence, Log, RowsAgree;
    var id, db' := c.authorizationId, CancelOne(h, db, c, now, correlationId).value;
    LogEvidence(h, db.audit, AppendInput(correlationId, id, CancelledPayload(id, now), now, None), c.eventId);
    SharedSame(h, db, db');
    forall other ensures RowsAgree(db', other) {
      InvAt(h, db, other);
      if other != id { UntouchedAgrees(h, db, db', other); } else { CancelledAgrees(db, db', id); }
    }
  }

  lemma CancelledAgrees(db: Db, db': Db, id: Id)
    requires RowsAgree(db, id) && id in db.authorizations && db.authorizations[id].status == RESERVED
    requires db'.authorizations == db.authorizations[id := db.authorizations[id].(status := CANCELLED)]
    requires db'.(authorizations := db.authorizations, audit := db.audit) == db
    requires forall t :: t in {AuthorizationReserved, PaymentAttemptStarted, PaymentResulted(APPROVED), OrderConfirmed} ==>
               Evidence(db'.audit, id, t) == Evidence(db.audit, id, t)
    ensures RowsAgree(db', id)
  {
    hide Evidence;
  }

  /** The stale rows that are still to be cancelled. */
  ghost predicate StillReserved(db: Db, cs: seq<Cancellation>) {
    && (forall i :: 0 <= i < |cs| ==>
         cs[i].authorizationId in db.authorizations && db.authorizations[cs[i].authorizationId].status == RESERVED)
    && forall i, j :: 0 <= i < j < |cs| ==> cs[i].authorizationId != cs[j].authorizationId
  }

  lemma {:induction false} CancelAllKeeps(h: Hasher, db: Db, cs: seq<Cancellation>, now: Instant, correlationId: Id)
    requires h.CollisionFree() && RailInv(h, db) && StillReserved(db, cs) && CancelAll(h, db, cs, now, correlationId).Ok?
    ensures var db' := CancelAll(h, db, cs, now, correlationId).value;
      && RailInv(h, db') && db' == db.(authorizations := db'.authorizations, audit := db'.audit)
      && db'.authorizations.Keys == db.authorizations.Keys
      && forall id | id in db.authorizations :: db'.authorizations[id] ==
           if exists i :: 0 <= i < |cs| && cs[i].authorizationId == id then db.authorizations[id].(status := CANCELLED)
           else db.authorizations[id]
    decreases |cs|
  {
    hide RailInv, Log;
    if cs != [] {
      CancelOneKeeps(h, db, cs[0], now, correlationId);
      var db1 := CancelOne(h, db, cs[0], now, correlationId).value;
      assert StillReserved(db1, cs[1..]);
      CancelAllKeeps(h, db1, cs[1..], now, correlationId);
      var db' := CancelAll(h, db, cs, now, correlationId).value;
      forall id | id in db.authorizations ensures db'.authorizations[id] ==
          if exists i :: 0 <= i < |cs| && cs[i].authorizationId == id then db.authorizations[id].(status := CANCELLED)
          else db.authorizations[id]
      {
        if id != cs[0].authorizationId && exists i :: 0 <= i < |cs| && cs[i].authorizationId == id {
          var i :| 0 <= i < |cs| && cs[i].authorizationId == id;
          assert cs[1..][i - 1].authorizationId == id;
        }
      }
    }
  }

  /** The database as the policy sees it: a passed expiry persisted, stale reservations cancelled. */
  ghost function Refreshed(h: Hasher, db: Db, input: ReserveInput): Result<Db, RailError>
    requires ListsStale(db, input)
  {
    CancelAll(h, db.(mandates := M.Touch(M.Db(db.mandates, map[]), input.mandateId, input.now).mandates),
              input.cancellations, input.now, input.correlationId)
  }

  lemma TouchEvolves(h: Hasher, mandates: map<Id, M.MandateRow>, m: Id, now: Instant)
    requires M.ProvenMandates(h, mandates)
    ensures M.Evolves(h, mandates, M.Touch(M.Db(mandates, map[]), m, now).mandates)
  {
  }

  lemma RefreshedKeeps(h: Hasher, db: Db, input: ReserveInput)
    requires h.CollisionFree() && RailInv(h, db) && ListsStale(db, input) && Refreshed(h, db, input).Ok?
    ensures var db' := Refreshed(h, db, input).value;
      && RailInv(h, db') && SharedGrow(h, db, db') && db'.authorizations.Keys == db.authorizations.Keys
      && db' == db.(mandates := db'.mandates, authorizations := db'.authorizations, audit := db'.audit)
      && (forall id | id in db.authorizations :: db'.authorizations[id] ==
           if Stale(db.authorizations[id], input.mandateId, input.now) then db.authorizations[id].(status := CANCELLED)
           else db.authorizations[id])
  {
    hide RailInv, SharedGrow, M.Touch, CancelAll, M.Evolves;
    InvAt(h, db, "");
    var touched := db.(mandates := M.Touch(M.Db(db.mandates, map[]), input.mandateId, input.now).mandates);
    TouchShares(h, db, input.mandateId, input.now);
    SharedWriteKeeps(h, db, touched);
    assert StillReserved(touched, input.cancellations);
    CancelAllKeeps(h, touched, input.cancellations, input.now, input.correlationId);
    SharedAlike(h, db, touched, Refreshed(h, db, input).value);
  }

  lemma TouchShares(h: Hasher, db: Db, m: Id, now: Instant)
    requires M.ProvenMandates(h, db.mandates)
    ensures SharedGrow(h, db, db.(mandates := M.Touch(M.Db(db.mandates, map[]), m, now).mandates))
  {
    hide M.Touch, M.Evolves;
    TouchEvolves(h, db.mandates, m, now);
  }

  lemma SharedAlike(h: Hasher, db: Db, mid: Db, db': Db)
    requires SharedGrow(h, db, mid)
    requires db'.mandates == mid.mandates && db'.agents == mid.agents && db'.checkouts == mid.checkouts
    ensures SharedGrow(h, db, db')
  {
  }

  /** A reservation the policy allowed carries everything a later dispute will ask for. */
  lemma NewReservationAgrees(h: Hasher, db: Db, db': Db, input: ReserveInput)
    requires RowsAgree(db, input.authorizationId) && input.authorizationId !in db.authorizations
    requires Allows(h, db, input) && M.ProvenMandates(h, db.mandates)
    requires db'.mandates == db.mandates && db'.agents == db.agents && db'.payments == db.payments && db'.orders == db.orders
    requires db'.checkouts == db.checkouts[input.checkoutId := input.checkout]
    requires db'.authorizations == db.authorizations[input.authorizationId :=
               NewAuthorization(input, db.mandates[input.mandateId].terms.expiresAt)]
    requires forall t :: Evidence(db'.audit, input.authorizationId, t) ==
               if t == AuthorizationReserved
               then Some(ReservedEvidence(input.authorizationId, NewAuthorization(input, db.mandates[input.mandateId].terms.expiresAt)))
               else Evidence(db.audit, input.authorizationId, t)
    ensures RowsAgree(db', input.authorizationId)
  {
    hide Evidence;
    assert M.ProvenMandate(h, input.mandateId, db.mandates[input.mandateId]);
    var id := input.authorizationId;
    assert Authorised(db', id, db'.authorizations[id]);
    assert StatusAgrees(db', id, db'.authorizations[id]);
  }

  lemma AllowedReserveKeeps(h: Hasher, db: Db, input: ReserveInput)
    requires h.CollisionFree() && RailInv(h, db) && ListsStale(db, input)
    requires Reserve(h, db, input).0.Ok? && Reserve(h, db, input).1 != db
    requires Refreshed(h, db, input).Ok?
    ensures var mid, db' := Refreshed(h, db, input).value, Reserve(h, db, input).1;
      && RailInv(h, db') && SharedGrow(h, db, db') && Allows(h, mid, input) && input.authorizationId !in db.authorizations
      && Reserve(h, db, input).0 == Ok(input.authorizationId)
      && db'.mandates == mid.mandates && db'.payments == db.payments && db'.orders == db.orders
      && db'.authorizations == mid.authorizations[input.authorizationId :=
           NewAuthorization(input, mid.mandates[input.mandateId].terms.expiresAt)]
  {
    hide RailInv, RowsAgree, Evidence, Allows, LedgerInv, ListsStale;
    RefreshedKeeps(h, db, input);
    var mid, db' := Refreshed(h, db, input).value, Reserve(h, db, input).1;
    InvAt(h, mid, input.authorizationId);
    AllowedAfterRefresh(h, mid, db', input);
  }

  ghost function ReservedEvent(input: ReserveInput, mandateExpiry: Instant): AppendInput {
    AppendInput(input.correlationId, input.authorizationId,
                ReservedEvidence(input.authorizationId, NewAuthorization(input, mandateExpiry)),
                input.now, Some("verify:" + input.idempotencyKey))
  }

  lemma AllowedAfterRefresh(h: Hasher, mid: Db, db': Db, input: ReserveInput)
    requires h.CollisionFree() && RailInv(h, mid) && Allows(h, mid, input) && input.authorizationId !in mid.authorizations
    requires Log(h, mid.audit, ReservedEvent(input, mid.mandates[input.mandateId].terms.expiresAt), input.eventId).Ok?
    requires db' == mid.(checkouts := mid.checkouts[input.checkoutId := input.checkout],
      authorizations := mid.authorizations[input.authorizationId :=
        NewAuthorization(input, mid.mandates[input.mandateId].terms.expiresAt)],
      audit := Log(h, mid.audit, ReservedEvent(input, mid.mandates[input.mandateId].terms.expiresAt), input.eventId).value.audit)
    ensures RailInv(h, db') && SharedGrow(h, mid, db')
  {
    hide RowsAgree, Evidence, LedgerInv, Log;
    LogEvidence(h, mid.audit, ReservedEvent(input, mid.mandates[input.mandateId].terms.expiresAt), input.eventId);
    assert SharedGrow(h, mid, db');
    NoReservedEvidence(mid, input.authorizationId);
    forall other ensures RowsAgree(db', other) {
      InvAt(h, mid, other);
      if other != input.authorizationId { UntouchedAgrees(h, mid, db', other); }
      else { NewReservationAgrees(h, mid, db', input); }
    }
  }

  lemma NoReservedEvidence(db: Db, id: Id)
    requires RowsAgree(db, id) && id !in db.authorizations
    ensures Evidence(db.audit, id, AuthorizationReserved) == None
  {
  }

  /** The whole reservation transaction, allowed, denied or failed. */
  lemma ReserveKeeps(h: Hasher, db: Db, input: ReserveInput)
    requires h.CollisionFree() && RailInv(h, db) && ListsStale(db, input)
    ensures RailInv(h, Reserve(h, db, input).1) && SharedGrow(h, db, Reserve(h, db, input).1)
  {
    hide RailInv, ListsStale, Allows;
    InvAt(h, db, "");
    var db' := Reserve(h, db, input).1;
    if db' == db {
      SharedSame(h, db, db');
    } else if Reserve(h, db, input).0.Ok? {
      AllowedReserveKeeps(h, db, input);
    } else {
      RefreshedKeeps(h, db, input);
    }
  }
}
