/** How every reservation and every claim is answered in a reachable state, on the columns of the stored rows
    (verify/store.ts, verify/policy.ts, payments/store.ts). */
module RailAnswers {
  import opened Common
  import opened AuditEvents
  import opened Ledger
  import opened MapSums
  import opened PaymentResults
  import opened Rail
  import opened RailInvariant
  import opened ReserveInvariant
  import opened PaymentProcess
  import opened PaymentResolution
  import Capacity
  import M = Mandates

  // ---------- Claims ----------

  /** The mandate's payment credential is there and is its principal's. */
  predicate OwnCredential(db: Db, a: AuthorizationRow) {
    && a.mandateId in db.mandates
    && var terms := db.mandates[a.mandateId].terms;
    && terms.credentialId in db.credentials && db.credentials[terms.credentialId].principalId == terms.principalId
  }

  ghost predicate AttemptElsewhere(db: Db, c: ClaimInput) {
    exists k :: k in db.payments
      && (db.payments[k].paymentAttemptId == c.paymentAttemptId || db.payments[k].providerIdempotencyKey == c.providerKey)
  }

  /** The attempt's row, its authorization and its evidence, and nothing else. */
  ghost predicate Attempted(db: Db, db': Db, c: ClaimInput)
    requires c.authorizationId in db.authorizations && db.authorizations[c.authorizationId].mandateId in db.mandates
  {
    var id, a := c.authorizationId, db.authorizations[c.authorizationId];
    && db' == db.(authorizations := db.authorizations[id := a.(status := PAYMENT_PENDING)],
                  payments := db.payments[id := PaymentRow(c.paymentAttemptId, None, id, db.mandates[a.mandateId].terms.credentialId,
                    a.reservedAmount, None, None, None, c.correlationId, c.providerKey, None)],
                  audit := db'.audit)
    && |db'.audit| == |db.audit| + 1
  }

  /** Every claim, in every reachable state: an authorization is claimed exactly while it is RESERVED, unexpired and
      payable with its principal's own credential, under an attempt id and a provider key that are new; once it is
      being paid or has been, the answer is what its row shows, or that no result is there yet. */
  lemma ClaimsExactly(h: Hasher, agents: map<Id, AgentRow>, credentials: map<Id, CredentialRow>, steps: seq<Step>, c: ClaimInput)
    requires h.CollisionFree()
    ensures var db := Run(h, Fresh(agents, credentials), steps).db;
      var (r, db') := Claim(h, db, c);
      && (r.Err? || r.value.Completed? ==> db' == db)
      && if c.authorizationId !in db.authorizations then r == Err(NotFound)
         else
           var id, a := c.authorizationId, db.authorizations[c.authorizationId];
           match a.status
           case CANCELLED => r == Err(NotPayable)
           case RESERVED =>
             if !OwnCredential(db, a) then r == Err(IntegrityFailure)
             else if a.expiresAt <= c.now then r == Err(ExpiredOrClaimed)
             else if AttemptElsewhere(db, c) then r == Err(DuplicateKey)
             else if r.Ok? then
               r.value == Claimed(c.paymentAttemptId, c.providerKey, id, a.reservedAmount)
               && (!InLedger(db.audit, "payment-attempt:" + c.paymentAttemptId, c.eventId) ==> Attempted(db, db', c))
             else r.error.LedgerFailure? && InLedger(db.audit, "payment-attempt:" + c.paymentAttemptId, c.eventId)
           case _ =>
             && id in db.payments
             && if db.payments[id].status.None? then r == Err(AlreadyPending)
                else r.Ok? && r.value.Completed? && Shows(db.payments[id], r.value.result)
                     && r.value.result.authorizationId == id && r.value.result.amount == a.reservedAmount
  {
    hide RailInv, RowsAgree, HistoryKept, Run, Claim, InLedger, OwnCredential, AttemptElsewhere, Attempted;
    FreshInv(h, agents, credentials);
    RunKeeps(h, Fresh(agents, credentials), steps);
    var db := Run(h, Fresh(agents, credentials), steps).db;
    InvAt(h, db, c.authorizationId);
    LedgerOf(h, db);
    ClaimKeeps(h, db, c);
    if c.authorizationId in db.authorizations {
      if db.authorizations[c.authorizationId].status == RESERVED { ReservedClaim(h, db, c); } else { LaterClaim(h, db, c); }
    } else {
      UnknownClaim(h, db, c);
    }
  }

  lemma LedgerOf(h: Hasher, db: Db)
    requires RailInv(h, db)
    ensures LedgerInv(h, db.audit)
  {
  }

  lemma UnknownClaim(h: Hasher, db: Db, c: ClaimInput)
    requires c.authorizationId !in db.authorizations
    ensures Claim(h, db, c) == (Err(NotFound), db)
  {
  }

  lemma LaterClaim(h: Hasher, db: Db, c: ClaimInput)
    requires RowsAgree(db, c.authorizationId) && c.authorizationId in db.authorizations
    requires db.authorizations[c.authorizationId].status != RESERVED
    ensures var id, a, r := c.authorizationId, db.authorizations[c.authorizationId], Claim(h, db, c).0;
      if a.status == CANCELLED then r == Err(NotPayable)
      else
        && id in db.payments
        && if db.payments[id].status.None? then r == Err(AlreadyPending)
           else r.Ok? && r.value.Completed? && Shows(db.payments[id], r.value.result)
                && r.value.result.authorizationId == id && r.value.result.amount == a.reservedAmount
  {
    hide Evidence, Log;
  }

  lemma ReservedClaim(h: Hasher, db: Db, c: ClaimInput)
    requires h.CollisionFree() && LedgerInv(h, db.audit) && RowsAgree(db, c.authorizationId) && c.authorizationId in db.authorizations
    requires db.authorizations[c.authorizationId].status == RESERVED
    ensures var id, a, (r, db') := c.authorizationId, db.authorizations[c.authorizationId], Claim(h, db, c);
      if !OwnCredential(db, a) then r == Err(IntegrityFailure)
      else if a.expiresAt <= c.now then r == Err(ExpiredOrClaimed)
      else if AttemptElsewhere(db, c) then r == Err(DuplicateKey)
      else if r.Ok? then
        r.value == Claimed(c.paymentAttemptId, c.providerKey, id, a.reservedAmount)
        && (!InLedger(db.audit, "payment-attempt:" + c.paymentAttemptId, c.eventId) ==> Attempted(db, db', c))
      else r.error.LedgerFailure? && InLedger(db.audit, "payment-attempt:" + c.paymentAttemptId, c.eventId)
  {
    hide Evidence, LedgerInv, Log, InLedger, NextRow;
    if !InLedger(db.audit, "payment-attempt:" + c.paymentAttemptId, c.eventId) {
      LogUnobstructed(h, db.audit, AttemptStarted(c, db.authorizations[c.authorizationId]), c.eventId);
    }
  }

  // ---------- Reservations ----------

  /** Reserved and not yet expired, being paid, or paid: what a mandate's limits are charged with. */
  predicate Charged(a: AuthorizationRow, m: Id, now: Instant) {
    a.mandateId == m && match a.status
      case RESERVED => now < a.expiresAt
      case PAYMENT_PENDING => true
      case CONSUMED => true
      case _ => false
  }

  function ChargedAmount(m: Id, now: Instant): AuthorizationRow -> nat {
    (a: AuthorizationRow) => if Charged(a, m, now) then a.reservedAmount.amount else 0
  }

  function ChargedUse(m: Id, now: Instant): AuthorizationRow -> nat {
    (a: AuthorizationRow) => if Charged(a, m, now) then 1 else 0
  }

  /** The mandate has authority for this agent, this principal and this merchant. */
  predicate MandateCovers(db: Db, input: ReserveInput) {
    && input.mandateId in db.mandates
    && var row := db.mandates[input.mandateId];
    && row.status == M.ACTIVE && row.terms.validFrom <= input.now && input.now < row.terms.expiresAt
    && row.activatedAt.Some? && row.activatedAt.value <= input.now
    && row.terms.agentId == input.agentId && row.terms.principalId == input.principalId
    && input.checkout.merchantId in row.terms.allowedMerchantIds
  }

  /** The request is for a live checkout that it names by its hash, and for its merchant. */
  predicate RequestFits(db: Db, input: ReserveInput) {
    && input.agentId in db.agents && db.agents[input.agentId].active
    && input.checkout.merchantId in input.allowedMerchantIds
    && input.checkoutHash == input.checkout.checkoutHash
    && input.now < input.validUntil && input.checkout.createdAt <= input.now && input.now < input.checkout.expiresAt
  }

  /** The price is within every limit, in one currency. */
  ghost predicate WithinBudget(db: Db, input: ReserveInput)
    requires input.mandateId in db.mandates
  {
    var terms, price := db.mandates[input.mandateId].terms, input.checkout.total;
    && price.currency == terms.maxPerPurchase.currency && price.currency == terms.maxAggregate.currency
    && price.currency == input.maxAmount.currency
    && price.amount <= terms.maxPerPurchase.amount && price.amount <= input.maxAmount.amount
    && Sum(db.authorizations, ChargedAmount(input.mandateId, input.now)) + price.amount <= terms.maxAggregate.amount
    && Sum(db.authorizations, ChargedUse(input.mandateId, input.now)) < terms.maxUses
    && Sum(db.authorizations, ChargedUse(input.mandateId, input.now)) < input.maxUses
  }

  /** Nothing was ever reserved for this checkout, or for its hash by this agent; and what is stored under its id or
      hash is this very checkout. */
  ghost predicate FirstUse(db: Db, input: ReserveInput) {
    && (forall id :: id in db.authorizations ==>
         && db.authorizations[id].checkoutId != input.checkoutId
         && !(db.authorizations[id].agentId == input.agentId && db.authorizations[id].checkoutHash == input.checkout.checkoutHash))
    && (input.checkoutId in db.checkouts ==> db.checkouts[input.checkoutId] == input.checkout)
    && (forall c :: c in db.checkouts && db.checkouts[c].checkoutHash == input.checkout.checkoutHash ==> c == input.checkoutId)
  }

  ghost predicate Permitted(db: Db, input: ReserveInput) {
    input.otherChecks && MandateCovers(db, input) && RequestFits(db, input) && WithinBudget(db, input) && FirstUse(db, input)
  }

  lemma SameSum(before: map<Id, AuthorizationRow>, after: map<Id, AuthorizationRow>,
                a: AuthorizationRow -> nat, b: AuthorizationRow -> nat)
    requires before.Keys == after.Keys && forall id :: id in before ==> a(before[id]) == b(after[id])
    ensures Sum(before, a) == Sum(after, b)
  {
    SumAtMost(before, a, after, b);
    SumAtMost(after, b, before, a);
  }

  /** What the policy decides on the refreshed rows is decided on the rows as they are. */
  lemma PermittedExactly(h: Hasher, db: Db, input: ReserveInput)
    requires h.CollisionFree() && RailInv(h, db) && ListsStale(db, input) && Refreshed(h, db, input).Ok?
    ensures Allows(h, Refreshed(h, db, input).value, input) <==> Permitted(db, input)
  {
    hide RailInv, Refreshed, SharedGrow, ListsStale, Allows, Permitted;
    RefreshedKeeps(h, db, input);
    RefreshedMandate(h, db, input);
    var mid, m, now := Refreshed(h, db, input).value, input.mandateId, input.now;
    UsageSame(db, mid, m, now);
    hide ChargedAmount, ChargedUse, CapacityAmount, CapacityUse;
    FirstUseExactly(db, mid, input);
    PolicyExactly(h, db, mid, input);
  }

  /** A stale reservation charges nothing, cancelled or not. */
  lemma UsageSame(db: Db, mid: Db, m: Id, now: Instant)
    requires mid.authorizations.Keys == db.authorizations.Keys
    requires forall id | id in db.authorizations ::
      mid.authorizations[id] == (
        if Stale(db.authorizations[id], m, now) then db.authorizations[id].(status := CANCELLED) else db.authorizations[id])
    ensures Sum(db.authorizations, ChargedAmount(m, now)) == Sum(mid.authorizations, CapacityAmount(m, now))
    ensures Sum(db.authorizations, ChargedUse(m, now)) == Sum(mid.authorizations, CapacityUse(m, now))
  {
    SameSum(db.authorizations, mid.authorizations, ChargedAmount(m, now), CapacityAmount(m, now));
    SameSum(db.authorizations, mid.authorizations, ChargedUse(m, now), CapacityUse(m, now));
  }

  lemma PolicyExactly(h: Hasher, db: Db, mid: Db, input: ReserveInput)
    requires mid.agents == db.agents && mid.mandates.Keys == db.mandates.Keys
    requires var m := input.mandateId; m in db.mandates ==>
      && mid.mandates[m] == db.mandates[m].(status := mid.mandates[m].status)
      && (M.AuthorityValid(h, mid.mandates[m], input.now) <==>
           db.mandates[m].status == M.ACTIVE && db.mandates[m].terms.validFrom <= input.now && input.now < db.mandates[m].terms.expiresAt)
    requires Sum(db.authorizations, ChargedAmount(input.mandateId, input.now))
          == Sum(mid.authorizations, CapacityAmount(input.mandateId, input.now))
    requires Sum(db.authorizations, ChargedUse(input.mandateId, input.now))
          == Sum(mid.authorizations, CapacityUse(input.mandateId, input.now))
    requires FirstUse(db, input) <==> StoredCheckoutMatches(mid, input) && !AlreadyUsed(mid, input)
    ensures Allows(h, mid, input) <==> Permitted(db, input)
  {
    hide M.AuthorityValid, Sum, FirstUse, StoredCheckoutMatches, AlreadyUsed, ChargedAmount, ChargedUse, CapacityAmount, CapacityUse;
  }

  lemma FirstUseExactly(db: Db, mid: Db, input: ReserveInput)
    requires mid.checkouts == db.checkouts && mid.authorizations.Keys == db.authorizations.Keys
    requires forall id :: id in db.authorizations ==> mid.authorizations[id] == db.authorizations[id].(status := mid.authorizations[id].status)
    ensures FirstUse(db, input) <==> StoredCheckoutMatches(mid, input) && !AlreadyUsed(mid, input)
  {
  }

  /** The mandate as the policy reads it: the same row, with a passed window marked. */
  lemma RefreshedMandate(h: Hasher, db: Db, input: ReserveInput)
    requires h.CollisionFree() && RailInv(h, db) && ListsStale(db, input) && Refreshed(h, db, input).Ok?
    ensures var mid, m := Refreshed(h, db, input).value, input.mandateId;
      && mid.mandates.Keys == db.mandates.Keys
      && (m in db.mandates ==>
           && mid.mandates[m] == db.mandates[m].(status := mid.mandates[m].status)
           && (M.AuthorityValid(h, mid.mandates[m], input.now) <==>
                db.mandates[m].status == M.ACTIVE && db.mandates[m].terms.validFrom <= input.now && input.now < db.mandates[m].terms.expiresAt))
  {
    hide RowsAgree, LedgerInv, ListsStale, CancelAll;
    var touched := db.(mandates := M.Touch(M.Db(db.mandates, map[]), input.mandateId, input.now).mandates);
    StaleReserved(db, input);
    CancelKeepsMandates(h, touched, input.cancellations, input.now, input.correlationId);
    if input.mandateId in db.mandates { assert M.ProvenMandate(h, input.mandateId, db.mandates[input.mandateId]); }
  }

  lemma StaleReserved(db: Db, input: ReserveInput)
    requires ListsStale(db, input)
    ensures forall i :: 0 <= i < |input.cancellations| ==> input.cancellations[i].authorizationId in db.authorizations
  {
  }

  lemma {:induction false} CancelKeepsMandates(h: Hasher, db: Db, cs: seq<Cancellation>, now: Instant, correlationId: Id)
    requires forall i :: 0 <= i < |cs| ==> cs[i].authorizationId in db.authorizations
    ensures CancelAll(h, db, cs, now, correlationId).Ok? ==> CancelAll(h, db, cs, now, correlationId).value.mandates == db.mandates
    decreases |cs|
  {
    hide Log;
    if cs != [] {
      var first := CancelOne(h, db, cs[0], now, correlationId);
      if first.Ok? { CancelKeepsMandates(h, first.value, cs[1..], now, correlationId); }
    }
  }

  predicate EarliestOf(t: Instant, a: Instant, b: Instant, c: Instant) {
    t <= a && t <= b && t <= c && (t == a || t == b || t == c)
  }

  /** A new reservation under an unused key, in every reachable state: it is denied exactly when it is not permitted;
      a permitted one is written, for the price and until the first of its three expiries, unless its id or its
      event is taken. */
  lemma ReservesExactly(h: Hasher, agents: map<Id, AgentRow>, credentials: map<Id, CredentialRow>, steps: seq<Step>, input: ReserveInput)
    requires h.CollisionFree()
    requires var db := Run(h, Fresh(agents, credentials), steps).db;
      && ListsStale(db, input) && Refreshed(h, db, input).Ok?
      && forall id :: id in db.authorizations ==> db.authorizations[id].idempotencyKey != input.idempotencyKey
    ensures var db := Run(h, Fresh(agents, credentials), steps).db;
      var (r, db') := Reserve(h, db, input);
      && (r == Err(Denied) <==> !Permitted(db, input))
      && (r.Err? ==> r.error in {Denied, DuplicateKey} || r.error.LedgerFailure?)
      && (r.Err? && r.error == DuplicateKey ==> input.authorizationId in db.authorizations)
      && (r.Err? && r.error.LedgerFailure? ==>
           InLedger(Refreshed(h, db, input).value.audit, "verify:" + input.idempotencyKey, input.eventId))
      && (r.Ok? ==>
           && r.value == input.authorizationId && input.authorizationId in db'.authorizations
           && var a, terms := db'.authorizations[input.authorizationId], db.mandates[input.mandateId].terms;
           && EarliestOf(a.expiresAt, input.validUntil, input.checkout.expiresAt, terms.expiresAt)
           && a == AuthorizationRow(input.mandateId, input.checkoutId, input.checkout.checkoutHash, input.principalId, input.agentId,
                     input.checkout.merchantId, input.allowedMerchantIds, input.maxAmount, input.checkout.total, RESERVED,
                     input.evidenceHash, input.correlationId, input.idempotencyKey, input.requestHash, input.now, a.expiresAt))
  {
    hide RailInv, HistoryKept, Run, ListsStale, Permitted, InLedger, Allows;
    FreshInv(h, agents, credentials);
    RunKeeps(h, Fresh(agents, credentials), steps);
    var db := Run(h, Fresh(agents, credentials), steps).db;
    PermittedExactly(h, db, input);
    RefreshedMandate(h, db, input);
    NewReservation(h, db, input);
  }

  lemma NewReservation(h: Hasher, db: Db, input: ReserveInput)
    requires h.CollisionFree() && RailInv(h, db) && ListsStale(db, input) && Refreshed(h, db, input).Ok?
    requires forall id :: id in db.authorizations ==> db.authorizations[id].idempotencyKey != input.idempotencyKey
    ensures var mid, (r, db') := Refreshed(h, db, input).value, Reserve(h, db, input);
      && (r == Err(Denied) <==> !Allows(h, mid, input))
      && (r.Err? ==> r.error in {Denied, DuplicateKey} || r.error.LedgerFailure?)
      && (r.Err? && r.error == DuplicateKey ==> input.authorizationId in db.authorizations)
      && (r.Err? && r.error.LedgerFailure? ==> InLedger(mid.audit, "verify:" + input.idempotencyKey, input.eventId))
      && (r.Ok? ==>
           && r.value == input.authorizationId && input.mandateId in mid.mandates
           && input.authorizationId in db'.authorizations
           && db'.authorizations[input.authorizationId] == NewAuthorization(input, mid.mandates[input.mandateId].terms.expiresAt))
  {
    hide RailInv, Allows, ListsStale, SharedGrow, InLedger, Refreshed, Log, NewAuthorization, ReservedEvidence, LedgerInv, Reserve;
    RefreshedKeeps(h, db, input);
    var mid := Refreshed(h, db, input).value;
    LedgerOf(h, mid);
    if Allows(h, mid, input) { AllowedHere(h, mid, input); }
    ReserveUnused(h, db, input);
    if Allows(h, mid, input) && !InLedger(mid.audit, "verify:" + input.idempotencyKey, input.eventId) {
      LogUnobstructed(h, mid.audit, ReservedEvent(input, mid.mandates[input.mandateId].terms.expiresAt), input.eventId);
    }
  }

  /** A reservation under an unused key, from the refreshed rows on. */
  lemma ReserveUnused(h: Hasher, db: Db, input: ReserveInput)
    requires ListsStale(db, input) && Refreshed(h, db, input).Ok?
    requires forall id :: id in db.authorizations ==> db.authorizations[id].idempotencyKey != input.idempotencyKey
    requires var mid := Refreshed(h, db, input).value; Allows(h, mid, input) ==> input.mandateId in mid.mandates
    ensures var mid, (r, db') := Refreshed(h, db, input).value, Reserve(h, db, input);
      if !Allows(h, mid, input) then r == Err(Denied) && db' == mid
      else if input.authorizationId in mid.authorizations then r == Err(DuplicateKey) && db' == db
      else
        var expiry := mid.mandates[input.mandateId].terms.expiresAt;
        var logged := Log(h, mid.audit, ReservedEvent(input, expiry), input.eventId);
        if logged.Err? then r == Err(logged.error) && db' == db
        else
          && r == Ok(input.authorizationId)
          && db'.authorizations == mid.authorizations[input.authorizationId := NewAuthorization(input, expiry)]
  {
    hide Allows, ListsStale, CancelAll, Log, NewAuthorization, ReservedEvidence, M.Touch;
  }

  lemma AllowedHere(h: Hasher, db: Db, input: ReserveInput)
    requires Allows(h, db, input)
    ensures input.mandateId in db.mandates
  {
  }

  // ---------- What a reservation does on its way, and again ----------

  /** Before a reservation is judged, exactly the mandate's reservations that were left unclaimed past their expiry are
      cancelled, and a passed window is marked; nothing else changes. */
  lemma StaleCancelledExactly(h: Hasher, agents: map<Id, AgentRow>, credentials: map<Id, CredentialRow>, steps: seq<Step>, input: ReserveInput)
    requires h.CollisionFree()
    requires var db := Run(h, Fresh(agents, credentials), steps).db; ListsStale(db, input) && Refreshed(h, db, input).Ok?
    ensures var db := Run(h, Fresh(agents, credentials), steps).db;
      var mid := Refreshed(h, db, input).value;
      && mid.payments == db.payments && mid.orders == db.orders && mid.checkouts == db.checkouts
      && mid.authorizations.Keys == db.authorizations.Keys && mid.mandates.Keys == db.mandates.Keys
      && (forall id :: id in db.authorizations ==>
           var a := db.authorizations[id];
           mid.authorizations[id] ==
             if a.mandateId == input.mandateId && a.status == RESERVED && a.expiresAt <= input.now then a.(status := CANCELLED) else a)
      && (Reserve(h, db, input).0 == Err(Denied) ==> Reserve(h, db, input).1.authorizations in {db.authorizations, mid.authorizations})
  {
    hide RailInv, HistoryKept, Run, ListsStale, Allows, SharedGrow, CancelAll;
    FreshInv(h, agents, credentials);
    RunKeeps(h, Fresh(agents, credentials), steps);
    var db := Run(h, Fresh(agents, credentials), steps).db;
    RefreshedKeeps(h, db, input);
    RefreshedMandate(h, db, input);
  }

  ghost predicate IsStale(db: Db, m: Id, now: Instant, id: Id) {
    id in db.authorizations && db.authorizations[id].mandateId == m && db.authorizations[id].status == RESERVED
    && db.authorizations[id].expiresAt <= now
  }

  predicate Listed(cs: seq<Cancellation>, id: Id) {
    exists i :: 0 <= i < |cs| && cs[i].authorizationId == id
  }

  lemma {:induction false} Listing(among: set<Id>) returns (cs: seq<Cancellation>)
    ensures forall i, j :: 0 <= i < j < |cs| ==> cs[i].authorizationId != cs[j].authorizationId
    ensures forall id :: Listed(cs, id) <==> id in among
    decreases |among|
  {
    cs := [];
    if among != {} {
      var id :| id in among;
      var rest := Listing(among - {id});
      cs := rest + [Cancellation(id, "")];
      assert forall i :: 0 <= i < |rest| ==> Listed(rest, rest[i].authorizationId);
      forall other ensures Listed(cs, other) <==> other in among {
        assert cs[|rest|].authorizationId == id;
        if Listed(rest, other) {
          var i :| 0 <= i < |rest| && rest[i].authorizationId == other;
          assert cs[i].authorizationId == other;
        }
      }
    }
  }

  /** The rows that a reservation cancels can always be listed, and such a listing lists exactly these. */
  lemma StaleCanBeListed(db: Db, input: ReserveInput) returns (cs: seq<Cancellation>)
    ensures ListsStale(db, input.(cancellations := cs))
    ensures forall id :: Listed(cs, id) <==> IsStale(db, input.mandateId, input.now, id)
  {
    var stale := set id | id in db.authorizations && IsStale(db, input.mandateId, input.now, id);
    cs := Listing(stale);
    forall i | 0 <= i < |cs| ensures IsStale(db, input.mandateId, input.now, cs[i].authorizationId) {
      assert Listed(cs, cs[i].authorizationId);
    }
    forall id | id in db.authorizations && Stale(db.authorizations[id], input.mandateId, input.now) ensures Listed(cs, id) {
      assert id in stale;
    }
  }

  ghost predicate UniqueKeys(authorizations: map<Id, AuthorizationRow>) {
    forall i, j :: i in authorizations && j in authorizations && i != j ==> authorizations[i].idempotencyKey != authorizations[j].idempotencyKey
  }

  lemma MovedKeys(before: map<Id, AuthorizationRow>, after: map<Id, AuthorizationRow>)
    requires UniqueKeys(before) && Capacity.Moves(before, after)
    ensures UniqueKeys(after)
  {
  }

  lemma ReserveKeys(h: Hasher, db: Db, input: ReserveInput)
    requires h.CollisionFree() && RailInv(h, db) && UniqueKeys(db.authorizations) && ListsStale(db, input)
    ensures UniqueKeys(Reserve(h, db, input).1.authorizations)
  {
    hide RailInv, Allows, ListsStale, SharedGrow, UniqueKeys, Refreshed, Reserve, NewAuthorization, Log, ReservedEvidence;
    NothingReserved(h, db, input);
    if Refreshed(h, db, input).Ok? && forall id :: id in db.authorizations ==> db.authorizations[id].idempotencyKey != input.idempotencyKey {
      var mid := Refreshed(h, db, input).value;
      RefreshedKeeps(h, db, input);
      MovedKeys(db.authorizations, mid.authorizations);
      if Allows(h, mid, input) { AllowedHere(h, mid, input); }
      ReserveUnused(h, db, input);
      if Allows(h, mid, input) {
        AddedKey(db.authorizations, mid.authorizations, input, mid.mandates[input.mandateId].terms.expiresAt);
      }
    }
  }

  /** A used key, or a cancellation that cannot be logged: nothing is written. */
  lemma NothingReserved(h: Hasher, db: Db, input: ReserveInput)
    requires ListsStale(db, input)
    ensures Refreshed(h, db, input).Err? ==> Reserve(h, db, input).1 == db
    ensures (exists id :: id in db.authorizations && db.authorizations[id].idempotencyKey == input.idempotencyKey) ==>
      Reserve(h, db, input).1 == db
  {
    hide Allows, ListsStale, CancelAll, Log, NewAuthorization, ReservedEvidence, M.Touch;
  }

  lemma AddedKey(before: map<Id, AuthorizationRow>, mid: map<Id, AuthorizationRow>, input: ReserveInput, expiry: Instant)
    requires UniqueKeys(mid) && Capacity.Moves(before, mid)
    requires forall id :: id in before ==> before[id].idempotencyKey != input.idempotencyKey
    ensures UniqueKeys(mid[input.authorizationId := NewAuthorization(input, expiry)])
  {
  }

  lemma StepKeys(h: Hasher, s: System, step: Step)
    requires h.CollisionFree() && Inv(h, s) && UniqueKeys(s.db.authorizations)
    ensures UniqueKeys(Next(h, s, step).db.authorizations)
  {
    hide RailInv, Capacity.WithinLimits, CallsBacked, AtMostOnce, UniqueKeys, Claim, Persist, Reserve, Log;
    match step
    case ReserveStep(input) => if ListsStale(s.db, input) { ReserveKeys(h, s.db, input); }
    case ClaimStep(_, c) =>
      Capacity.ClaimMoves(h, s.db, c);
      MovedKeys(s.db.authorizations, Claim(h, s.db, c).1.authorizations);
    case PersistStep(pid, now, e1, e2) =>
      if pid in s.calls && s.calls[pid].HasResult? {
        PersistedKeys(h, s.db, PersistInput(s.calls[pid].attemptId, s.calls[pid].result, now, e1, e2));
      }
    case ReconcileStep(attempt, key, p) =>
      if attempt.Ok? { PersistedKeys(h, s.db, p.(paymentAttemptId := attempt.value.0)); }
    case _ =>
  }

  lemma PersistedKeys(h: Hasher, db: Db, p: PersistInput)
    requires UniqueKeys(db.authorizations)
    ensures UniqueKeys(Persist(h, db, p).1.authorizations)
  {
    hide Persist, UniqueKeys;
    Capacity.PersistMoves(h, db, p);
    MovedKeys(db.authorizations, Persist(h, db, p).1.authorizations);
  }

  lemma {:induction false} RunKeys(h: Hasher, s: System, steps: seq<Step>)
    requires h.CollisionFree() && Inv(h, s) && UniqueKeys(s.db.authorizations)
    ensures UniqueKeys(Run(h, s, steps).db.authorizations)
    decreases |steps|
  {
    hide Inv, UniqueKeys, Next, HistoryKept;
    if steps != [] {
      StepKeys(h, s, steps[0]);
      NextKeeps(h, s, steps[0]);
      RunKeys(h, Next(h, s, steps[0]), steps[1..]);
    }
  }

  /** A reservation under a key that was used, in every reachable state: the same request is answered with its
      authorization, any other refused, and nothing is written. */
  lemma ReservationReplays(h: Hasher, agents: map<Id, AgentRow>, credentials: map<Id, CredentialRow>, steps: seq<Step>,
                           input: ReserveInput, id: Id)
    requires h.CollisionFree()
    requires var db := Run(h, Fresh(agents, credentials), steps).db;
      ListsStale(db, input) && id in db.authorizations && db.authorizations[id].idempotencyKey == input.idempotencyKey
    ensures var db := Run(h, Fresh(agents, credentials), steps).db;
      Reserve(h, db, input) ==
        (if db.authorizations[id].requestHash == input.requestHash then Ok(id) else Err(KeyConflict), db)
  {
    hide Run, ListsStale, Allows, CancelAll, Inv;
    FreshInv(h, agents, credentials);
    RunKeys(h, Fresh(agents, credentials), steps);
  }

  /** Ids made for an authorization are readable as long as they fit into 128 characters; then different
      authorizations have different ones. */
  lemma ReadableIds(h: Hasher, prefix: string, a: string, b: string)
    ensures |prefix| + 1 + |a| <= 128 ==> StableIdentifier(h, prefix, a) == prefix + "_" + a
    ensures |prefix| + 1 + |a| > 128 ==> StableIdentifier(h, prefix, a) == prefix + "_" + h.shortened(a)
    ensures |prefix| + 1 + |a| <= 128 && |prefix| + 1 + |b| <= 128 && StableIdentifier(h, prefix, a) == StableIdentifier(h, prefix, b) ==> a == b
  {
    assert (prefix + "_" + a)[|prefix| + 1..] == a && (prefix + "_" + b)[|prefix| + 1..] == b;
  }
}
