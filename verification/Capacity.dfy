/** A mandate's limits bound what was reserved, what is in payment and what was confirmed under it. */
module Capacity {
  import opened Common
  import opened AuditEvents
  import opened PaymentResults
  import opened MapSums
  import opened Rail
  import opened RailInvariant
  import opened ReserveInvariant
  import M = Mandates

  /** A row of `mandateId` that holds capacity whatever the clock says. */
  predicate Active(a: AuthorizationRow, mandateId: Id) {
    a.mandateId == mandateId && a.status in {RESERVED, PAYMENT_PENDING, AuthorizationStatus.CONSUMED}
  }

  function ActiveAmount(mandateId: Id): AuthorizationRow -> nat {
    (a: AuthorizationRow) => if Active(a, mandateId) then a.reservedAmount.amount else 0
  }

  function ActiveUse(mandateId: Id): AuthorizationRow -> nat {
    (a: AuthorizationRow) => if Active(a, mandateId) then 1 else 0
  }

  ghost predicate WithinLimits(db: Db) {
    forall m :: m in db.mandates ==>
      && Sum(db.authorizations, ActiveAmount(m)) <= db.mandates[m].terms.maxAggregate.amount
      && Sum(db.authorizations, ActiveUse(m)) <= db.mandates[m].terms.maxUses
  }

  /** Every authorization stays, or makes one transition of its state machine. */
  ghost predicate Moves(before: map<Id, AuthorizationRow>, after: map<Id, AuthorizationRow>) {
    && before.Keys == after.Keys
    && forall id :: id in before ==>
         || after[id] == before[id]
         || (CanTransition(before[id].status, after[id].status) && after[id] == before[id].(status := after[id].status))
  }

  /** Drafts have no authorizations: a reservation needs an active mandate. */
  lemma UnknownMandateUnused(h: Hasher, db: Db, m: Id)
    requires RailInv(h, db) && m !in db.mandates
    ensures Sum(db.authorizations, ActiveAmount(m)) == 0 && Sum(db.authorizations, ActiveUse(m)) == 0
  {
    hide Evidence, Ledger.LedgerInv;
    forall id | id in db.authorizations ensures db.authorizations[id].mandateId != m {
      InvAt(h, db, id);
    }
    ZeroSum(db.authorizations, ActiveAmount(m));
    ZeroSum(db.authorizations, ActiveUse(m));
  }

  lemma {:induction false} ZeroSum<T>(m: map<Id, T>, weight: T -> nat)
    requires forall k :: k in m ==> weight(m[k]) == 0
    ensures Sum(m, weight) == 0
    decreases |m|
  {
    if m != map[] {
      var k :| k in m;
      SumSplit(m, k, weight);
      ZeroSum(m - {k}, weight);
    }
  }

  lemma MovesKeepLimits(h: Hasher, db: Db, db': Db)
    requires WithinLimits(db) && RailInv(h, db) && Moves(db.authorizations, db'.authorizations) && M.Evolves(h, db.mandates, db'.mandates)
    ensures WithinLimits(db')
  {
    hide RailInv;
    forall m | m in db'.mandates
      ensures Sum(db'.authorizations, ActiveAmount(m)) <= db'.mandates[m].terms.maxAggregate.amount
      ensures Sum(db'.authorizations, ActiveUse(m)) <= db'.mandates[m].terms.maxUses
    {
      SumAtMost(db'.authorizations, ActiveAmount(m), db.authorizations, ActiveAmount(m));
      SumAtMost(db'.authorizations, ActiveUse(m), db.authorizations, ActiveUse(m));
      if m !in db.mandates { UnknownMandateUnused(h, db, m); }
    }
  }

  /** After stale reservations are cancelled, what the policy counts is everything still active. */
  lemma UsageIsActive(db: Db, input: ReserveInput)
    requires forall id :: id in db.authorizations ==> !Stale(db.authorizations[id], input.mandateId, input.now)
    ensures Sum(db.authorizations, ActiveAmount(input.mandateId)) <= Sum(db.authorizations, CapacityAmount(input.mandateId, input.now))
    ensures Sum(db.authorizations, ActiveUse(input.mandateId)) <= Sum(db.authorizations, CapacityUse(input.mandateId, input.now))
  {
    SumAtMost(db.authorizations, ActiveAmount(input.mandateId), db.authorizations, CapacityAmount(input.mandateId, input.now));
    SumAtMost(db.authorizations, ActiveUse(input.mandateId), db.authorizations, CapacityUse(input.mandateId, input.now));
  }

  lemma NewRowWithinLimits(h: Hasher, mid: Db, input: ReserveInput)
    requires WithinLimits(mid) && Allows(h, mid, input) && input.authorizationId !in mid.authorizations
    requires forall id :: id in mid.authorizations ==> !Stale(mid.authorizations[id], input.mandateId, input.now)
    ensures WithinLimits(mid.(authorizations := mid.authorizations[input.authorizationId :=
              NewAuthorization(input, mid.mandates[input.mandateId].terms.expiresAt)]))
  {
    UsageIsActive(mid, input);
    var a := NewAuthorization(input, mid.mandates[input.mandateId].terms.expiresAt);
    forall m ensures Sum(mid.authorizations[input.authorizationId := a], ActiveAmount(m))
        == Sum(mid.authorizations, ActiveAmount(m)) + ActiveAmount(m)(a)
      ensures Sum(mid.authorizations[input.authorizationId := a], ActiveUse(m))
        == Sum(mid.authorizations, ActiveUse(m)) + ActiveUse(m)(a)
    {
      SumWrite(mid.authorizations, input.authorizationId, a, ActiveAmount(m));
      SumWrite(mid.authorizations, input.authorizationId, a, ActiveUse(m));
    }
  }

  lemma ReserveKeepsLimits(h: Hasher, db: Db, input: ReserveInput)
    requires h.CollisionFree() && RailInv(h, db) && ListsStale(db, input) && WithinLimits(db)
    ensures WithinLimits(Reserve(h, db, input).1)
  {
    hide RailInv, WithinLimits, Allows;
    var db' := Reserve(h, db, input).1;
    if db' != db {
      RefreshedKeeps(h, db, input);
      var mid := Refreshed(h, db, input).value;
      MovesKeepLimits(h, db, mid);
      if Reserve(h, db, input).0.Ok? {
        AllowedReserveKeeps(h, db, input);
        NewRowWithinLimits(h, mid, input);
        var grown := mid.(authorizations := db'.authorizations);
        SameRowsWithinLimits(grown, db');
      }
    }
  }

  lemma SameRowsWithinLimits(db: Db, db': Db)
    requires WithinLimits(db) && db'.authorizations == db.authorizations && db'.mandates == db.mandates
    ensures WithinLimits(db')
  {
  }

  lemma OneMoves(authorizations: map<Id, AuthorizationRow>, id: Id, to: AuthorizationStatus)
    requires id in authorizations && (to == authorizations[id].status || CanTransition(authorizations[id].status, to))
    ensures Moves(authorizations, authorizations[id := authorizations[id].(status := to)])
  {
  }

  lemma ClaimShape(h: Hasher, db: Db, c: ClaimInput)
    ensures var after, id := Claim(h, db, c).1.authorizations, c.authorizationId;
      || after == db.authorizations
      || (id in db.authorizations && db.authorizations[id].status == RESERVED
          && after == db.authorizations[id := db.authorizations[id].(status := PAYMENT_PENDING)])
  {
    hide Log, BindingsHold, Refusal, AttemptTaken, AttemptStarted, NewPayment;
  }

  lemma ClaimMoves(h: Hasher, db: Db, c: ClaimInput)
    ensures Moves(db.authorizations, Claim(h, db, c).1.authorizations)
  {
    hide Claim;
    ClaimShape(h, db, c);
    if Claim(h, db, c).1.authorizations != db.authorizations { OneMoves(db.authorizations, c.authorizationId, PAYMENT_PENDING); }
  }

  lemma WriteShape(h: Hasher, db: Db, id: Id, p: PersistInput)
    requires id in db.payments && WriteResult(h, db, id, p).Ok?
    ensures id in db.authorizations && db.authorizations[id].status == PAYMENT_PENDING
    ensures WriteResult(h, db, id, p).value.authorizations
         == db.authorizations[id := db.authorizations[id].(status := AuthorizationStatusFor(p.result))]
  {
    hide Log, ResultEvent, OrderEvent, OrderTaken, PaymentIdTaken, WithResult, NewOrder, AuthorizationStatusFor;
  }

  lemma WriteMoves(h: Hasher, db: Db, id: Id, p: PersistInput)
    requires id in db.payments
    ensures WriteResult(h, db, id, p).Ok? ==> Moves(db.authorizations, WriteResult(h, db, id, p).value.authorizations)
  {
    hide WriteResult;
    if WriteResult(h, db, id, p).Ok? {
      WriteShape(h, db, id, p);
      OneMoves(db.authorizations, id, AuthorizationStatusFor(p.result));
    }
  }

  lemma PersistMoves(h: Hasher, db: Db, p: PersistInput)
    ensures Moves(db.authorizations, Persist(h, db, p).1.authorizations)
  {
    hide WriteResult;
    if id :| OwnsAttempt(db, id, p.paymentAttemptId) && Persist(h, db, p) == PersistFor(h, db, id, p) {
      WriteMoves(h, db, id, p);
    }
  }

  /** The confirmed orders of a mandate. */
  function ConfirmedAmount(authorizations: map<Id, AuthorizationRow>, m: Id): OrderRow -> nat {
    (o: OrderRow) => if o.authorizationId in authorizations && authorizations[o.authorizationId].mandateId == m
                     then o.total.amount else 0
  }

  function ConfirmedUse(authorizations: map<Id, AuthorizationRow>, m: Id): OrderRow -> nat {
    (o: OrderRow) => if o.authorizationId in authorizations && authorizations[o.authorizationId].mandateId == m then 1 else 0
  }

  /** So what was confirmed under a mandate stays within its aggregate limit and its number of uses. */
  lemma OrdersWithinLimits(h: Hasher, db: Db, m: Id)
    requires RailInv(h, db) && WithinLimits(db) && m in db.mandates
    ensures Sum(db.orders, ConfirmedAmount(db.authorizations, m)) <= db.mandates[m].terms.maxAggregate.amount
    ensures Sum(db.orders, ConfirmedUse(db.authorizations, m)) <= db.mandates[m].terms.maxUses
  {
    forall id | id in db.orders
      ensures id in db.authorizations
      ensures ConfirmedAmount(db.authorizations, m)(db.orders[id]) <= ActiveAmount(m)(db.authorizations[id])
      ensures ConfirmedUse(db.authorizations, m)(db.orders[id]) <= ActiveUse(m)(db.authorizations[id])
    {
      OrderBacked(h, db, id);
    }
    SumAtMost(db.orders, ConfirmedAmount(db.authorizations, m), db.authorizations, ActiveAmount(m));
    SumAtMost(db.orders, ConfirmedUse(db.authorizations, m), db.authorizations, ActiveUse(m));
  }

  lemma OrderBacked(h: Hasher, db: Db, id: Id)
    requires RailInv(h, db) && id in db.orders
    ensures id in db.authorizations && db.authorizations[id].status == AuthorizationStatus.CONSUMED
    ensures db.orders[id].authorizationId == id && db.orders[id].total == db.authorizations[id].reservedAmount
  {
    hide Evidence, Ledger.LedgerInv;
    InvAt(h, db, id);
  }
}
