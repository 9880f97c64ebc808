/** A purchase dispute re-derives the authority of an order from what payments and the ledger wrote
    (disputes/service.ts, disputes/adjudication.ts). */
module Disputes {
  import opened Common
  import opened AuditEvents
  import opened HashChain
  import opened Ledger
  import opened PaymentResults
  import opened Rail
  import opened RailInvariant
  import M = Mandates

  datatype Graph = Graph(
    order: OrderRow,
    authorizationId: Id,
    authorization: AuthorizationRow,
    payment: PaymentRow,
    mandate: M.MandateRow,
    checkoutId: Id,
    checkout: CheckoutRow,
    agentId: Id,
    agent: AgentRow)

  datatype Checks = Checks(
    receiptOwnership: bool,
    commercialBinding: bool,
    mandateAuthority: bool,
    agentIdentity: bool,
    paymentApproved: bool,
    auditChain: bool)

  datatype Verdict = AUTHORIZED | UNAUTHORIZED
  datatype LiableParty = PRINCIPAL | MERCHANT
  datatype FinancialOutcome = NO_CHARGEBACK | CHARGEBACK_RECORDED

  datatype Adjudication = Adjudication(verdict: Verdict, liableParty: LiableParty, outcome: FinancialOutcome)

  /** The inner join of a receipt's order with the rows it refers to. */
  ghost predicate IsGraph(db: Db, receiptId: Id, g: Graph) {
    && (exists k :: k in db.orders && db.orders[k] == g.order)
    && g.order.receiptId == receiptId
    && g.authorizationId == g.order.authorizationId
    && g.authorizationId in db.authorizations && g.authorization == db.authorizations[g.authorizationId]
    && (exists k :: k in db.payments && db.payments[k] == g.payment && g.payment.paymentId == Some(g.order.paymentId))
    && g.authorization.mandateId in db.mandates && g.mandate == db.mandates[g.authorization.mandateId]
    && g.checkoutId == g.order.checkoutId && g.checkoutId in db.checkouts && g.checkout == db.checkouts[g.checkoutId]
    && g.agentId == g.authorization.agentId && g.agentId in db.agents && g.agent == db.agents[g.agentId]
  }

  predicate MandateTermsHashMatches(h: Hasher, mandate: M.MandateRow) {
    mandate.termsHash.Some? && mandate.termsHash.value == h.terms(mandate.terms)
  }

  predicate ScopeCovers(agent: AgentRow, principalId: Id) {
    agent.accessScope == PUBLIC || agent.principalId == principalId
  }

  predicate CommercialBinding(g: Graph) {
    && g.order.checkoutId == g.checkoutId
    && g.order.authorizationId == g.authorizationId
    && g.payment.paymentId == Some(g.order.paymentId)
    && g.order.merchantId == g.authorization.merchantId
    && g.checkout.merchantId == g.authorization.merchantId
    && g.order.total == g.authorization.reservedAmount
    && g.checkout.total == g.authorization.reservedAmount
    && g.payment.amount == g.authorization.reservedAmount
  }

  predicate MandateAuthority(h: Hasher, g: Graph) {
    var terms, a := g.mandate.terms, g.authorization;
    && terms.mandateId == a.mandateId
    && terms.principalId == a.principalId
    && terms.agentId == a.agentId
    && g.mandate.activatedAt.Some? && g.mandate.activatedAt.value <= a.reservedAt
    && terms.validFrom <= a.reservedAt < terms.expiresAt
    && MandateTermsHashMatches(h, g.mandate)
    && g.mandate.principalSignature.Some?
    && (a.merchantId in terms.allowedMerchantIds || |terms.allowedMerchantCategories| > 0)
    && terms.maxPerPurchase.amount >= a.reservedAmount.amount
    && terms.maxPerPurchase.currency == a.reservedAmount.currency
    && a.merchantId in a.allowedMerchantIds
    && a.maxAmount.amount >= a.reservedAmount.amount
    && a.maxAmount.currency == a.reservedAmount.currency
  }

  predicate AgentIdentity(g: Graph, reserved: Option<Payload>) {
    && g.agentId == g.authorization.agentId
    && ScopeCovers(g.agent, g.authorization.principalId)
    && reserved.Some? && reserved.value.ReservedPayload?
    && reserved.value.agentId == g.authorization.agentId
    && reserved.value.principalId == g.authorization.principalId
    && reserved.value.mandateId == g.authorization.mandateId
    && reserved.value.evidenceHash == g.authorization.evidenceHash
    && reserved.value.reservedAmount == g.authorization.reservedAmount
  }

  predicate PaymentApproved(g: Graph, attempt: Option<Payload>, approved: Option<Payload>, confirmed: Option<Payload>) {
    && g.payment.status == Some(APPROVED)
    && g.payment.paymentId.Some?
    && approved.Some? && approved.value.ResultPayload?
    && approved.value.paymentId == g.payment.paymentId
    && approved.value.authorizationId == g.authorizationId
    && approved.value.amount == g.payment.amount
    && attempt.Some? && attempt.value.AttemptPayload? && attempt.value.authorizationId == g.authorizationId
    && confirmed.Some? && confirmed.value.OrderPayload?
    && Some(confirmed.value.confirmedPaymentId) == g.payment.paymentId
    && confirmed.value.orderId == g.order.orderId
    && confirmed.value.receiptId == g.order.receiptId
    && confirmed.value.total == g.order.total
  }

  function EvidenceChecks(h: Hasher, g: Graph, events: seq<AuditEvent>): Checks {
    var reserved := FirstOf(events, AuthorizationReserved);
    var attempt := FirstOf(events, PaymentAttemptStarted);
    var approved := FirstOf(events, PaymentResulted(APPROVED));
    var confirmed := FirstOf(events, OrderConfirmed);
    Checks(
      g.order.authorizationId == g.authorizationId && g.authorization.principalId == g.mandate.terms.principalId,
      CommercialBinding(g),
      MandateAuthority(h, g),
      AgentIdentity(g, PayloadOf(reserved)),
      PaymentApproved(g, PayloadOf(attempt), PayloadOf(approved), PayloadOf(confirmed)),
      |events| >= 4 && reserved.Some? && attempt.Some? && approved.Some? && confirmed.Some?)
  }

  predicate AllHold(checks: Checks) {
    && checks.receiptOwnership && checks.commercialBinding && checks.mandateAuthority
    && checks.agentIdentity && checks.paymentApproved && checks.auditChain
  }

  function Adjudicate(checks: Checks): Adjudication {
    if !AllHold(checks) then Adjudication(UNAUTHORIZED, MERCHANT, CHARGEBACK_RECORDED)
    else Adjudication(AUTHORIZED, PRINCIPAL, NO_CHARGEBACK)
  }

  /** The events a dispute looks at: none when the chain does not validate, an error when it does not link. */
  ghost function DisputeEvents(h: Hasher, audit: seq<AuditRow>, subjectId: Id): Result<seq<AuditEvent>, ChainError> {
    var ordered := OrderChain(SubjectEvents(audit, subjectId));
    if ordered.Err? then ordered else if ValidChain(h, ordered.value) then ordered else Ok([])
  }

  ghost function Evaluate(h: Hasher, db: Db, g: Graph): Result<Checks, ChainError> {
    var events := DisputeEvents(h, db.audit, g.authorizationId);
    if events.Err? then Err(events.error) else Ok(EvidenceChecks(h, g, events.value))
  }

  // ---------- In a reachable state ----------

  lemma EventsOfValidLedger(h: Hasher, audit: seq<AuditRow>, subjectId: Id)
    requires h.CollisionFree() && LedgerInv(h, audit)
    ensures DisputeEvents(h, audit, subjectId) == Ok(SubjectEvents(audit, subjectId))
  {
    ValidChainRebuilds(h, SubjectEvents(audit, subjectId), SubjectEvents(audit, subjectId));
  }

  /** Every order joins to a graph, and only to the rows written under its own authorization. */
  lemma OrderHasGraph(h: Hasher, db: Db, id: Id)
    requires RailInv(h, db) && id in db.orders
    ensures id in db.authorizations && db.authorizations[id].checkoutId in db.checkouts
    ensures id in db.payments && db.payments[id].paymentId == Some(db.orders[id].paymentId)
    ensures exists g :: IsGraph(db, db.orders[id].receiptId, g) && g.order == db.orders[id]
  {
    hide LedgerInv, Evidence, M.ProvenMandates;
    InvAt(h, db, id);
    var a, o := db.authorizations[id], db.orders[id];
    var g := Graph(o, id, a, db.payments[id], db.mandates[a.mandateId], o.checkoutId, db.checkouts[o.checkoutId],
                   a.agentId, db.agents[a.agentId]);
    assert IsGraph(db, o.receiptId, g);
  }

  lemma GraphRows(h: Hasher, db: Db, receiptId: Id, g: Graph)
    requires RailInv(h, db) && IsGraph(db, receiptId, g)
    ensures var id := g.authorizationId;
      && id in db.orders && g.order == db.orders[id] && id in db.payments && g.payment == db.payments[id]
      && RowsAgree(db, id) && M.ProvenMandate(h, g.authorization.mandateId, g.mandate)
  {
    hide LedgerInv, Evidence, RowsAgree;
    var k :| k in db.orders && db.orders[k] == g.order;
    OrderHasGraph(h, db, k);
    InvAt(h, db, k);
    OrderKey(db, k);
    var p :| p in db.payments && db.payments[p] == g.payment && g.payment.paymentId == Some(g.order.paymentId);
    assert p == k;
  }

  lemma OrderKey(db: Db, id: Id)
    requires RowsAgree(db, id) && id in db.orders
    ensures db.orders[id].authorizationId == id
  {
    hide Evidence;
  }

  lemma FourEvents(events: seq<AuditEvent>)
    requires FirstOf(events, AuthorizationReserved).Some? && FirstOf(events, PaymentAttemptStarted).Some?
    requires FirstOf(events, PaymentResulted(APPROVED)).Some? && FirstOf(events, OrderConfirmed).Some?
    ensures |events| >= 4
  {
    var w :| 0 <= w < |events| && events[w].eventType == AuthorizationReserved;
    var x :| 0 <= x < |events| && events[x].eventType == PaymentAttemptStarted;
    var y :| 0 <= y < |events| && events[y].eventType == PaymentResulted(APPROVED);
    var z :| 0 <= z < |events| && events[z].eventType == OrderConfirmed;
    var s := {w, x, y, z};
    assert |s| == 4;
    BoundedIndices(s, |events|);
  }

  lemma BoundedIndices(s: set<int>, n: nat)
    requires forall i :: i in s ==> 0 <= i < n
    ensures |s| <= n
  {
    if n == 0 {
      assert forall i :: i !in s;
      assert s == {};
    } else {
      BoundedIndices(s - {n - 1}, n - 1);
    }
  }

  /** All checks but the agent's scope hold of every order of a reachable state. */
  lemma ChecksOfOrder(h: Hasher, db: Db, receiptId: Id, g: Graph)
    requires h.CollisionFree() && RailInv(h, db) && IsGraph(db, receiptId, g)
    ensures Evaluate(h, db, g)
         == Ok(Checks(true, true, true, ScopeCovers(g.agent, g.authorization.principalId), true, true))
  {
    hide LedgerInv;
    GraphRows(h, db, receiptId, g);
    EventsOfValidLedger(h, db.audit, g.authorizationId);
    FourEvents(SubjectEvents(db.audit, g.authorizationId));
  }

  /** The adjudication of every order of every reachable state, for every way the rows can be joined: the
      principal is liable for an authorized purchase exactly when the agent's row now covers the principal;
      otherwise the merchant is, and a chargeback is recorded. The mandate's later fate, the clock and the
      order the events were loaded in do not matter. */
  lemma VerdictExactly(h: Hasher, db: Db, receiptId: Id, g: Graph)
    requires h.CollisionFree() && RailInv(h, db) && IsGraph(db, receiptId, g)
    ensures Evaluate(h, db, g).Ok?
    ensures Adjudicate(Evaluate(h, db, g).value)
         == if g.agent.accessScope == PUBLIC || g.agent.principalId == g.mandate.terms.principalId
            then Adjudication(AUTHORIZED, PRINCIPAL, NO_CHARGEBACK)
            else Adjudication(UNAUTHORIZED, MERCHANT, CHARGEBACK_RECORDED)
  {
    hide RailInv;
    ChecksOfOrder(h, db, receiptId, g);
  }

  // ---------- In any state: what a verdict of AUTHORIZED rests on ----------

  /** An event of the chain with this type, hashed payload and all. */
  ghost predicate Holds(h: Hasher, chain: seq<AuditEvent>, payload: Payload) {
    exists i :: 0 <= i < |chain| && chain[i].eventType == TypeOf(payload) && chain[i].sanitizedPayload == Some(payload)
      && chain[i].payloadHash == h.payload(payload)
  }

  lemma {:induction false} ExtendMembers(events: seq<AuditEvent>, ordered: seq<AuditEvent>)
    requires 0 < |ordered| <= |events| && Extend(events, ordered).Ok?
    requires forall e :: e in ordered ==> e in events
    ensures forall e :: e in Extend(events, ordered).value ==> e in events
    decreases |events| - |ordered|
  {
    if |ordered| < |events| {
      ExtendMembers(events, ordered + WithPrevious(events, Some(ordered[|ordered| - 1].eventHash)));
    }
  }

  lemma PayloadHeld(h: Hasher, audit: seq<AuditRow>, subjectId: Id, events: seq<AuditEvent>, t: EventType)
    requires DisputeEvents(h, audit, subjectId) == Ok(events) && PayloadOf(FirstOf(events, t)).Some?
    ensures Ok(events) == OrderChain(SubjectEvents(audit, subjectId)) && ValidChain(h, events)
    ensures var p := PayloadOf(FirstOf(events, t)).value; TypeOf(p) == t && Holds(h, events, p)
  {
    var rows := SubjectEvents(audit, subjectId);
    if rows != [] { ExtendMembers(rows, WithPrevious(rows, None)); }
    var event := FirstOf(events, t).value;
    var i :| 0 <= i < |events| && events[i] == event;
    assert CheckAt(h, events, i) == None;
    assert event in rows;
    var j :| 0 <= j < |audit| && StoredEvent(audit[j]) == event;
  }

  /** Whoever wrote the tables: an AUTHORIZED verdict, a liable principal or a refused chargeback means that
      the authorization's events link and validate, and hold the four purchase events with payloads that name
      these very rows. */
  lemma AuthorizedRestsOnEvidence(h: Hasher, db: Db, g: Graph)
    requires Evaluate(h, db, g).Ok?
    requires var a := Adjudicate(Evaluate(h, db, g).value);
      a.verdict == AUTHORIZED || a.liableParty == PRINCIPAL || a.outcome == NO_CHARGEBACK
    ensures OrderChain(SubjectEvents(db.audit, g.authorizationId)).Ok?
    ensures var chain := OrderChain(SubjectEvents(db.audit, g.authorizationId)).value;
      && ValidChain(h, chain) && |chain| >= 4
      && (exists p: Payload :: p.ReservedPayload? && Holds(h, chain, p)
           && p.agentId == g.authorization.agentId && p.principalId == g.mandate.terms.principalId
           && p.mandateId == g.authorization.mandateId && p.reservedAmount == g.order.total
           && p.evidenceHash == g.authorization.evidenceHash)
      && (exists p: Payload :: p.AttemptPayload? && Holds(h, chain, p) && p.authorizationId == g.authorizationId)
      && (exists p: Payload :: p.ResultPayload? && Holds(h, chain, p) && p.status == APPROVED
           && p.authorizationId == g.authorizationId && p.amount == g.order.total
           && p.paymentId == Some(g.order.paymentId))
      && (exists p: Payload :: p.OrderPayload? && Holds(h, chain, p) && p.confirmedPaymentId == g.order.paymentId
           && p.orderId == g.order.orderId && p.receiptId == g.order.receiptId && p.total == g.order.total)
    ensures g.mandate.termsHash == Some(h.terms(g.mandate.terms)) && g.mandate.principalSignature.Some?
    ensures g.payment.status == Some(APPROVED) && g.payment.paymentId == Some(g.order.paymentId)
    ensures g.order.authorizationId == g.authorizationId && g.order.checkoutId == g.checkoutId && g.agentId == g.authorization.agentId
    ensures g.agent.accessScope == PUBLIC || g.agent.principalId == g.authorization.principalId
    ensures var terms, a := g.mandate.terms, g.authorization;
      && terms.mandateId == a.mandateId && terms.principalId == a.principalId && terms.agentId == a.agentId
      && g.mandate.activatedAt.Some? && g.mandate.activatedAt.value <= a.reservedAt
      && terms.validFrom <= a.reservedAt < terms.expiresAt
      && (a.merchantId in terms.allowedMerchantIds || terms.allowedMerchantCategories != [])
      && a.merchantId in a.allowedMerchantIds && g.order.merchantId == a.merchantId == g.checkout.merchantId
      && g.order.total == g.checkout.total == g.payment.amount
      && g.order.total.amount <= terms.maxPerPurchase.amount && g.order.total.amount <= a.maxAmount.amount
      && g.order.total.currency == terms.maxPerPurchase.currency == a.maxAmount.currency
  {
    hide CommercialBinding, MandateAuthority, AgentIdentity, PaymentApproved, DisputeEvents, OrderChain, ValidChain, Holds;
    var events := DisputeEvents(h, db.audit, g.authorizationId).value;
    AuthorizedRows(h, g);
    AuthorizedPayloads(g, events);
    PayloadHeld(h, db.audit, g.authorizationId, events, AuthorizationReserved);
    PayloadHeld(h, db.audit, g.authorizationId, events, PaymentAttemptStarted);
    PayloadHeld(h, db.audit, g.authorizationId, events, PaymentResulted(APPROVED));
    PayloadHeld(h, db.audit, g.authorizationId, events, OrderConfirmed);
  }

  /** What the payloads name when the two checks on them hold. */
  lemma AuthorizedPayloads(g: Graph, events: seq<AuditEvent>)
    requires CommercialBinding(g)
    requires AgentIdentity(g, PayloadOf(FirstOf(events, AuthorizationReserved)))
    requires PaymentApproved(g, PayloadOf(FirstOf(events, PaymentAttemptStarted)),
                             PayloadOf(FirstOf(events, PaymentResulted(APPROVED))), PayloadOf(FirstOf(events, OrderConfirmed)))
    ensures var p := PayloadOf(FirstOf(events, AuthorizationReserved));
      && p.Some? && p.value.ReservedPayload? && p.value.agentId == g.authorization.agentId
      && p.value.principalId == g.authorization.principalId && p.value.mandateId == g.authorization.mandateId
      && p.value.reservedAmount == g.order.total && p.value.evidenceHash == g.authorization.evidenceHash
    ensures var p := PayloadOf(FirstOf(events, PaymentAttemptStarted));
      p.Some? && p.value.AttemptPayload? && p.value.authorizationId == g.authorizationId
    ensures var p := PayloadOf(FirstOf(events, PaymentResulted(APPROVED)));
      && p.Some? && p.value.ResultPayload? && p.value.authorizationId == g.authorizationId && p.value.amount == g.order.total
      && p.value.paymentId == Some(g.order.paymentId)
    ensures var p := PayloadOf(FirstOf(events, OrderConfirmed));
      && p.Some? && p.value.OrderPayload? && p.value.confirmedPaymentId == g.order.paymentId && p.value.orderId == g.order.orderId
      && p.value.receiptId == g.order.receiptId && p.value.total == g.order.total
    ensures g.payment.status == Some(APPROVED) && g.payment.paymentId == Some(g.order.paymentId)
    ensures g.order.authorizationId == g.authorizationId && g.order.checkoutId == g.checkoutId && g.agentId == g.authorization.agentId
    ensures g.agent.accessScope == PUBLIC || g.agent.principalId == g.authorization.principalId
  {
    hide FirstOf;
  }

  /** What the rows say when the two checks on them hold. */
  lemma AuthorizedRows(h: Hasher, g: Graph)
    requires CommercialBinding(g) && MandateAuthority(h, g)
    ensures g.mandate.termsHash == Some(h.terms(g.mandate.terms)) && g.mandate.principalSignature.Some?
    ensures var terms, a := g.mandate.terms, g.authorization;
      && terms.mandateId == a.mandateId && terms.principalId == a.principalId && terms.agentId == a.agentId
      && g.mandate.activatedAt.Some? && g.mandate.activatedAt.value <= a.reservedAt
      && terms.validFrom <= a.reservedAt < terms.expiresAt
      && (a.merchantId in terms.allowedMerchantIds || terms.allowedMerchantCategories != [])
      && a.merchantId in a.allowedMerchantIds && g.order.merchantId == a.merchantId == g.checkout.merchantId
      && g.order.total == g.checkout.total == g.payment.amount
      && g.order.total.amount <= terms.maxPerPurchase.amount && g.order.total.amount <= a.maxAmount.amount
      && g.order.total.currency == terms.maxPerPurchase.currency == a.maxAmount.currency
  {
  }
}
