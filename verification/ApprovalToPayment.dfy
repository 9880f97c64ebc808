/** The conversation above the rail: one approval leads to at most one authorization, one executor call and one
    order, for the approved amount. A message's purchase tool asks the rail under the key of the approval;
    between that and the end of the message, and between messages, anything may happen on the rail. */
module ApprovalToPayment {
  import opened Common
  import opened AuditEvents
  import opened PaymentResults
  import opened Rail
  import opened RailInvariant
  import opened ReserveInvariant
  import opened PaymentProcess
  import Capacity
  import C = TravelRuns
  import P = TravelPolicy
  import T = TravelBot

  /** What the tool and the verifier derive by hashing: the verification key of an approval, and the hash of a
      request, which no two requests for different checkouts or mandates share. */
  datatype Derived = Derived(verifyKey: Id -> Id, request: ReserveInput -> Digest)
  {
    ghost predicate CollisionFree() {
      forall x, y :: request(x) == request(y) ==>
        x.mandateId == y.mandateId && x.checkoutId == y.checkoutId && x.checkout == y.checkout
    }
  }

  /** A payment that the conversation asked for, and the approval persisted last before it. */
  datatype Payment = Payment(approval: T.Binding, authorizationId: Id)

  datatype Joint = Joint(session: C.Session, rail: System, paid: seq<Payment>)

  datatype Move =
    | OnRail(step: Step)
    | Message(env: T.Env, verify: ReserveInput, meanwhile: seq<Step>)

  predicate Hashed(d: Derived, step: Step) {
    step.ReserveStep? ==> step.reserve.requestHash == d.request(step.reserve)
  }

  predicate AllHashed(d: Derived, steps: seq<Step>) {
    forall i :: 0 <= i < |steps| ==> Hashed(d, steps[i])
  }

  predicate AsksRail(events: seq<T.Event>) {
    exists i :: 0 <= i < |events| && events[i].Verifies?
  }

  /** The tool's verification request: the held checkout under the held mandate, keyed by the approval. */
  predicate AskedWith(d: Derived, events: seq<T.Event>, verify: ReserveInput) {
    && verify.requestHash == d.request(verify)
    && (exists i :: 0 <= i < |events| && events[i].RequestsPurchase? && events[i].view.operation.pending.Some?
         && verify.idempotencyKey == d.verifyKey(events[i].view.operation.pending.value.approvalId))
    && (exists i :: 0 <= i < |events| && events[i].Verifies?
         && verify.mandateId == events[i].mandateId && verify.checkoutId == events[i].checkout.checkoutId
         && verify.checkout.checkoutHash == events[i].checkout.checkoutHash && verify.checkout.total == events[i].checkout.total)
  }

  predicate HoldsApproved(db: Db, id: Id) {
    id in db.payments && db.payments[id].status == Some(APPROVED)
  }

  /** The rail really gave the answers that the message worked with. */
  ghost predicate Answered(h: Hasher, before: System, after: System, verify: ReserveInput, a: T.PurchaseAnswers) {
    && ListsStale(before.db, verify)
    && (a.decision.Some? && a.decision.value.Some? ==>
         && Reserve(h, before.db, verify).0 == Ok(a.decision.value.value)
         && (a.payment == Some(APPROVED) ==> HoldsApproved(after.db, a.decision.value.value)))
  }

  ghost function RailAfter(h: Hasher, s: System, verify: ReserveInput, meanwhile: seq<Step>): System {
    Run(h, Next(h, s, ReserveStep(verify)), meanwhile)
  }

  function PaidBy(approval: Option<T.Binding>, a: T.PurchaseAnswers): seq<Payment> {
    if approval.Some? && a.decision.Some? && a.decision.value.Some? then [Payment(approval.value, a.decision.value.value)] else []
  }

  /** A move that cannot happen changes nothing. */
  ghost function Moved(h: Hasher, d: Derived, j: Joint, move: Move): Joint {
    match move
    case OnRail(step) => if Hashed(d, step) then j.(rail := Next(h, j.rail, step)) else j
    case Message(env, verify, meanwhile) =>
      var r := T.Turn(C.CONFIGURED, j.session.conversation, env);
      var session := C.Session(r.conversation, j.session.trace + r.events);
      if !AsksRail(r.events) then j.(session := session)
      else if AskedWith(d, r.events, verify) && AllHashed(d, meanwhile)
              && Answered(h, j.rail, RailAfter(h, j.rail, verify, meanwhile), verify, env.purchase) then
        Joint(session, RailAfter(h, j.rail, verify, meanwhile),
              j.paid + PaidBy(C.LastPersisted(j.session.trace), env.purchase))
      else j
  }

  ghost function Play(h: Hasher, d: Derived, j: Joint, moves: seq<Move>): Joint
    decreases |moves|
  {
    if moves == [] then j else Play(h, d, Moved(h, d, j, moves[0]), moves[1..])
  }

  ghost function Begin(agents: map<Id, AgentRow>, credentials: map<Id, CredentialRow>): Joint {
    Joint(C.CREATED, Fresh(agents, credentials), [])
  }

  // ---------- Reservation keys ----------

  /** The request that a row was reserved for. */
  ghost predicate Sourced(d: Derived, a: AuthorizationRow) {
    exists x: ReserveInput :: d.request(x) == a.requestHash && x.mandateId == a.mandateId && x.checkoutId == a.checkoutId
      && x.checkout.checkoutHash == a.checkoutHash && x.checkout.total == a.reservedAmount
  }

  ghost predicate Keyed(d: Derived, db: Db) {
    && (forall i, j :: i in db.authorizations && j in db.authorizations && i != j ==>
         db.authorizations[i].idempotencyKey != db.authorizations[j].idempotencyKey)
    && (forall i :: i in db.authorizations ==> Sourced(d, db.authorizations[i]))
  }

  lemma MovesKeepKeyed(d: Derived, db: Db, db': Db)
    requires Keyed(d, db) && Capacity.Moves(db.authorizations, db'.authorizations)
    ensures Keyed(d, db')
  {
    hide Sourced;
    forall i | i in db'.authorizations ensures Sourced(d, db'.authorizations[i]) {
      SameSource(d, db.authorizations[i], db'.authorizations[i]);
    }
  }

  lemma SameSource(d: Derived, a: AuthorizationRow, b: AuthorizationRow)
    requires Sourced(d, a) && b == a.(status := b.status)
    ensures Sourced(d, b)
  {
    var x: ReserveInput :| d.request(x) == a.requestHash && x.mandateId == a.mandateId && x.checkoutId == a.checkoutId
      && x.checkout.checkoutHash == a.checkoutHash && x.checkout.total == a.reservedAmount;
  }

  lemma RefreshMoves(h: Hasher, db: Db, input: ReserveInput)
    requires h.CollisionFree() && RailInv(h, db) && ListsStale(db, input) && Refreshed(h, db, input).Ok?
    ensures Capacity.Moves(db.authorizations, Refreshed(h, db, input).value.authorizations)
  {
    hide RailInv, Refreshed, SharedGrow, ListsStale;
    RefreshedKeeps(h, db, input);
  }

  lemma NewSource(d: Derived, input: ReserveInput, expiry: Instant)
    requires input.requestHash == d.request(input)
    ensures Sourced(d, NewAuthorization(input, expiry))
  {
  }

  /** What the reservation answers, besides keeping the keys: a row under its own key, for its own request. */
  ghost predicate ReservedFor(db: Db, id: Id, input: ReserveInput) {
    && id in db.authorizations
    && var a := db.authorizations[id];
    && a.idempotencyKey == input.idempotencyKey && a.mandateId == input.mandateId && a.checkoutId == input.checkoutId
    && a.checkoutHash == input.checkout.checkoutHash && a.reservedAmount == input.checkout.total
  }

  lemma ReplayedFor(d: Derived, db: Db, id: Id, input: ReserveInput)
    requires d.CollisionFree() && Keyed(d, db) && input.requestHash == d.request(input)
    requires id in db.authorizations && db.authorizations[id].idempotencyKey == input.idempotencyKey
    requires db.authorizations[id].requestHash == input.requestHash
    ensures ReservedFor(db, id, input)
  {
    assert Sourced(d, db.authorizations[id]);
  }

  lemma ReserveKeyed(h: Hasher, d: Derived, db: Db, input: ReserveInput)
    requires h.CollisionFree() && d.CollisionFree() && RailInv(h, db) && Keyed(d, db) && ListsStale(db, input)
    requires input.requestHash == d.request(input)
    ensures var (r, db') := Reserve(h, db, input);
      Keyed(d, db') && (r.Ok? ==> ReservedFor(db', r.value, input))
  {
    hide RailInv, ListsStale, Keyed, Sourced, ReservedFor, Reserve, Refreshed;
    ReserveCases(h, db, input);
    var (r, db') := Reserve(h, db, input);
    if KeyUnused(db, input) {
      if r.Ok? {
        AllowedKeyed(h, d, db, input);
      } else if db' != db {
        RefreshMoves(h, db, input);
        MovesKeepKeyed(d, db, db');
      }
    } else if r.Ok? {
      ReplayedFor(d, db, r.value, input);
    }
  }

  predicate KeyUnused(db: Db, input: ReserveInput) {
    forall id :: id in db.authorizations ==> db.authorizations[id].idempotencyKey != input.idempotencyKey
  }

  lemma ReserveCases(h: Hasher, db: Db, input: ReserveInput)
    requires ListsStale(db, input)
    ensures var (r, db') := Reserve(h, db, input);
      if KeyUnused(db, input) then
        && (r.Ok? ==> Refreshed(h, db, input).Ok? && db' != db)
        && (r.Err? ==> db' == db || Refreshed(h, db, input) == Ok(db'))
      else
        && db' == db
        && (r.Ok? ==> && r.value in db.authorizations && db.authorizations[r.value].idempotencyKey == input.idempotencyKey
                      && db.authorizations[r.value].requestHash == input.requestHash)
  {
    hide Allows, ListsStale, CancelAll, Log, M.Touch;
    if KeyUnused(db, input) && Reserve(h, db, input).0.Ok? {
      var id := Reserve(h, db, input).0.value;
      assert Reserve(h, db, input).1.authorizations[id].idempotencyKey == input.idempotencyKey;
    }
  }

  lemma AllowedKeyed(h: Hasher, d: Derived, db: Db, input: ReserveInput)
    requires h.CollisionFree() && RailInv(h, db) && Keyed(d, db) && ListsStale(db, input)
    requires input.requestHash == d.request(input)
    requires KeyUnused(db, input)
    requires Reserve(h, db, input).0.Ok? && Reserve(h, db, input).1 != db && Refreshed(h, db, input).Ok?
    ensures var (r, db') := Reserve(h, db, input);
      Keyed(d, db') && ReservedFor(db', r.value, input)
  {
    AllowedReserveKeeps(h, db, input);
    hide RailInv, Allows, ListsStale, SharedGrow, Keyed, Sourced, Reserve, Refreshed, NewAuthorization, ReservedFor;
    var mid := Refreshed(h, db, input).value;
    RefreshMoves(h, db, input);
    MovesKeepKeyed(d, db, mid);
    AllowedMandate(h, mid, input);
    var expiry := mid.mandates[input.mandateId].terms.expiresAt;
    NewSource(d, input, expiry);
    NewKeyed(d, db, mid, Reserve(h, db, input).1, input, expiry);
  }

  lemma AllowedMandate(h: Hasher, db: Db, input: ReserveInput)
    requires Allows(h, db, input)
    ensures input.mandateId in db.mandates
  {
  }

  lemma NewKeyed(d: Derived, db: Db, mid: Db, db': Db, input: ReserveInput, expiry: Instant)
    requires Keyed(d, mid) && Capacity.Moves(db.authorizations, mid.authorizations)
    requires KeyUnused(db, input)
    requires db'.authorizations == mid.authorizations[input.authorizationId := NewAuthorization(input, expiry)]
    requires Sourced(d, NewAuthorization(input, expiry))
    ensures Keyed(d, db') && ReservedFor(db', input.authorizationId, input)
  {
    hide Sourced;
  }

  // ---------- The rail's steps keep the keys ----------

  lemma StepKeepsKeyed(h: Hasher, d: Derived, s: System, step: Step)
    requires h.CollisionFree() && d.CollisionFree() && Inv(h, s) && Keyed(d, s.db) && Hashed(d, step)
    ensures Keyed(d, Next(h, s, step).db)
  {
    hide RailInv, Capacity.WithinLimits, CallsBacked, AtMostOnce, Keyed, Claim, Persist, Reserve, Log;
    match step
    case ReserveStep(input) =>
      if ListsStale(s.db, input) { ReserveKeyed(h, d, s.db, input); }
    case ClaimStep(pid, c) =>
      Capacity.ClaimMoves(h, s.db, c);
      MovesKeepKeyed(d, s.db, Claim(h, s.db, c).1);
    case PersistStep(pid, now, e1, e2) =>
      if pid in s.calls && s.calls[pid].HasResult? {
        PersistKeyed(h, d, s.db, PersistInput(s.calls[pid].attemptId, s.calls[pid].result, now, e1, e2));
      }
    case ReconcileStep(attempt, key, p) =>
      if attempt.Ok? { PersistKeyed(h, d, s.db, p.(paymentAttemptId := attempt.value.0)); }
    case _ => SameRowsKeyed(d, s.db, Next(h, s, step).db);
  }

  lemma SameRowsKeyed(d: Derived, db: Db, db': Db)
    requires Keyed(d, db) && db'.authorizations == db.authorizations
    ensures Keyed(d, db')
  {
  }

  lemma PersistKeyed(h: Hasher, d: Derived, db: Db, p: PersistInput)
    requires Keyed(d, db)
    ensures Keyed(d, Persist(h, db, p).1)
  {
    hide Persist, Keyed;
    Capacity.PersistMoves(h, db, p);
    MovesKeepKeyed(d, db, Persist(h, db, p).1);
  }

  lemma {:induction false} RunKeepsKeyed(h: Hasher, d: Derived, s: System, steps: seq<Step>)
    requires h.CollisionFree() && d.CollisionFree() && Inv(h, s) && Keyed(d, s.db) && AllHashed(d, steps)
    ensures Keyed(d, Run(h, s, steps).db) && Inv(h, Run(h, s, steps)) && HistoryKept(h, s.db, Run(h, s, steps).db)
    decreases |steps|
  {
    hide Inv, Keyed, Next, HistoryKept;
    RunKeeps(h, s, steps);
    if steps != [] {
      assert Hashed(d, steps[0]);
      StepKeepsKeyed(h, d, s, steps[0]);
      NextKeeps(h, s, steps[0]);
      RunKeepsKeyed(h, d, Next(h, s, steps[0]), steps[1..]);
    }
  }

  // ---------- The conversation and the rail ----------

  /** The authorization that a payment of the conversation asked for. */
  ghost predicate PaidFor(d: Derived, db: Db, p: Payment) {
    && p.authorizationId in db.authorizations
    && var a := db.authorizations[p.authorizationId];
    && a.idempotencyKey == d.verifyKey(p.approval.approvalId) && a.mandateId == p.approval.mandateId
    && a.checkoutId == p.approval.checkoutId && a.checkoutHash == p.approval.checkoutHash && a.reservedAmount == p.approval.amount
  }

  ghost predicate JointInv(h: Hasher, d: Derived, j: Joint) {
    && C.SessionInv(j.session) && Inv(h, j.rail) && Keyed(d, j.rail.db)
    && forall i :: 0 <= i < |j.paid| ==> PaidFor(d, j.rail.db, j.paid[i])
  }

  lemma PaidStays(h: Hasher, d: Derived, db: Db, db': Db, p: Payment)
    requires HistoryKept(h, db, db') && PaidFor(d, db, p)
    ensures PaidFor(d, db', p)
  {
    assert AuthorizationKept(db, db', p.authorizationId);
  }

  lemma AllPaidStay(h: Hasher, d: Derived, db: Db, db': Db, paid: seq<Payment>)
    requires HistoryKept(h, db, db') && forall i :: 0 <= i < |paid| ==> PaidFor(d, db, paid[i])
    ensures forall i :: 0 <= i < |paid| ==> PaidFor(d, db', paid[i])
  {
    hide HistoryKept, PaidFor;
    forall i | 0 <= i < |paid| ensures PaidFor(d, db', paid[i]) { PaidStays(h, d, db, db', paid[i]); }
  }

  /** What a turn of a reachable conversation asks the rail for is what its approval was persisted with. */
  lemma AsksForTheApproval(d: Derived, session: C.Session, env: T.Env, verify: ReserveInput)
    requires C.SessionInv(session)
    requires AskedWith(d, T.Turn(C.CONFIGURED, session.conversation, env).events, verify)
    ensures var bound := C.LastPersisted(session.trace);
      && bound.Some? && verify.idempotencyKey == d.verifyKey(bound.value.approvalId) && verify.mandateId == bound.value.mandateId
      && verify.checkoutId == bound.value.checkoutId && verify.checkout.checkoutHash == bound.value.checkoutHash
      && verify.checkout.total == bound.value.amount
  {
    hide T.Turn, C.TurnInv, C.BoundTo;
    var bound, r := C.LastPersisted(session.trace), T.Turn(C.CONFIGURED, session.conversation, env);
    C.TurnKeeps(session.conversation, env, bound);
    var i :| 0 <= i < |r.events| && r.events[i].RequestsPurchase? && r.events[i].view.operation.pending.Some?
      && verify.idempotencyKey == d.verifyKey(r.events[i].view.operation.pending.value.approvalId);
    assert C.Guarded(r.events[i], bound);
    C.BoundView(r.events[i].view, bound.value);
    var k :| 0 <= k < |r.events| && r.events[k].Verifies?
      && verify.mandateId == r.events[k].mandateId && verify.checkoutId == r.events[k].checkout.checkoutId
      && verify.checkout.checkoutHash == r.events[k].checkout.checkoutHash && verify.checkout.total == r.events[k].checkout.total;
    assert C.Guarded(r.events[k], bound);
  }

  lemma AskingKeeps(h: Hasher, d: Derived, j: Joint, env: T.Env, verify: ReserveInput, meanwhile: seq<Step>)
    requires h.CollisionFree() && d.CollisionFree() && JointInv(h, d, j)
    requires AskedWith(d, T.Turn(C.CONFIGURED, j.session.conversation, env).events, verify) && AllHashed(d, meanwhile)
    requires Answered(h, j.rail, RailAfter(h, j.rail, verify, meanwhile), verify, env.purchase)
    ensures var after := RailAfter(h, j.rail, verify, meanwhile);
      var paid := j.paid + PaidBy(C.LastPersisted(j.session.trace), env.purchase);
      && Inv(h, after) && Keyed(d, after.db) && HistoryKept(h, j.rail.db, after.db)
      && forall i :: 0 <= i < |paid| ==> PaidFor(d, after.db, paid[i])
  {
    hide T.Turn, C.SessionInv, Inv, Keyed, HistoryKept, Reserve, Run, ListsStale, AskedWith, PaidFor;
    AsksForTheApproval(d, j.session, env, verify);
    var mid, after := Next(h, j.rail, ReserveStep(verify)), RailAfter(h, j.rail, verify, meanwhile);
    assert Hashed(d, ReserveStep(verify)) by { AskedHashed(d, T.Turn(C.CONFIGURED, j.session.conversation, env).events, verify); }
    NextKeeps(h, j.rail, ReserveStep(verify));
    StepKeepsKeyed(h, d, j.rail, ReserveStep(verify));
    RunKeepsKeyed(h, d, mid, meanwhile);
    HistoryKeptTransitive(h, j.rail.db, mid.db, after.db);
    AllPaidStay(h, d, j.rail.db, after.db, j.paid);
    var a := env.purchase;
    if a.decision.Some? && a.decision.value.Some? {
      ReservedRow(h, d, j.rail, verify);
      var p := Payment(C.LastPersisted(j.session.trace).value, a.decision.value.value);
      assert PaidFor(d, mid.db, p) by { BoughtRow(d, mid.db, p, verify); }
      PaidStays(h, d, mid.db, after.db, p);
    }
  }

  lemma AskedHashed(d: Derived, events: seq<T.Event>, verify: ReserveInput)
    requires AskedWith(d, events, verify)
    ensures verify.requestHash == d.request(verify)
  {
  }

  lemma ReservedRow(h: Hasher, d: Derived, s: System, verify: ReserveInput)
    requires h.CollisionFree() && d.CollisionFree() && Inv(h, s) && Keyed(d, s.db) && ListsStale(s.db, verify)
    requires verify.requestHash == d.request(verify)
    ensures Reserve(h, s.db, verify).0.Ok? ==>
      ReservedFor(Next(h, s, ReserveStep(verify)).db, Reserve(h, s.db, verify).0.value, verify)
  {
    hide Reserve, ListsStale, RailInv, Keyed;
    ReserveKeyed(h, d, s.db, verify);
  }

  lemma BoughtRow(d: Derived, db: Db, p: Payment, verify: ReserveInput)
    requires ReservedFor(db, p.authorizationId, verify)
    requires verify.idempotencyKey == d.verifyKey(p.approval.approvalId) && verify.mandateId == p.approval.mandateId
    requires verify.checkoutId == p.approval.checkoutId && verify.checkout.checkoutHash == p.approval.checkoutHash
    requires verify.checkout.total == p.approval.amount
    ensures PaidFor(d, db, p)
  {
  }

  lemma MoveKeeps(h: Hasher, d: Derived, j: Joint, move: Move)
    requires h.CollisionFree() && d.CollisionFree() && JointInv(h, d, j)
    ensures JointInv(h, d, Moved(h, d, j, move)) && HistoryKept(h, j.rail.db, Moved(h, d, j, move).rail.db)
  {
    hide T.Turn, C.SessionInv, Inv, Keyed, HistoryKept, Next, RailAfter, AskedWith, AllHashed, Answered, PaidFor, AsksRail;
    HistoryOfInv(h, j.rail);
    match move
    case OnRail(step) =>
      if Hashed(d, step) {
        NextKeeps(h, j.rail, step);
        StepKeepsKeyed(h, d, j.rail, step);
        AllPaidStay(h, d, j.rail.db, Next(h, j.rail, step).db, j.paid);
      }
    case Message(env, verify, meanwhile) =>
      var events := T.Turn(C.CONFIGURED, j.session.conversation, env).events;
      C.SessionKeeps(j.session, env);
      if AsksRail(events) && AskedWith(d, events, verify) && AllHashed(d, meanwhile)
         && Answered(h, j.rail, RailAfter(h, j.rail, verify, meanwhile), verify, env.purchase) {
        AskingKeeps(h, d, j, env, verify, meanwhile);
        assert Moved(h, d, j, move).rail == RailAfter(h, j.rail, verify, meanwhile);
        assert C.SessionInv(Moved(h, d, j, move).session);
        assert Moved(h, d, j, move).paid == j.paid + PaidBy(C.LastPersisted(j.session.trace), env.purchase);
        assert JointInv(h, d, Moved(h, d, j, move));
      } else {
        assert Moved(h, d, j, move).rail == j.rail && Moved(h, d, j, move).paid == j.paid;
      }
  }

  lemma {:induction false} PlayKeeps(h: Hasher, d: Derived, j: Joint, moves: seq<Move>)
    requires h.CollisionFree() && d.CollisionFree() && JointInv(h, d, j)
    ensures JointInv(h, d, Play(h, d, j, moves)) && HistoryKept(h, j.rail.db, Play(h, d, j, moves).rail.db)
    decreases |moves|
  {
    hide JointInv, HistoryKept, Moved;
    if moves == [] {
      assert HistoryKept(h, j.rail.db, j.rail.db) by { JointHistory(h, d, j); }
    } else {
      var j' := Moved(h, d, j, moves[0]);
      MoveKeeps(h, d, j, moves[0]);
      PlayKeeps(h, d, j', moves[1..]);
      HistoryKeptTransitive(h, j.rail.db, j'.rail.db, Play(h, d, j', moves[1..]).rail.db);
    }
  }

  lemma JointHistory(h: Hasher, d: Derived, j: Joint)
    requires JointInv(h, d, j)
    ensures HistoryKept(h, j.rail.db, j.rail.db)
  {
    hide Inv, HistoryKept, C.SessionInv, Keyed;
    HistoryOfInv(h, j.rail);
  }

  lemma BeginInv(h: Hasher, d: Derived, agents: map<Id, AgentRow>, credentials: map<Id, CredentialRow>)
    ensures JointInv(h, d, Begin(agents, credentials))
  {
    C.CreatedInv();
    FreshInv(h, agents, credentials);
  }

  // ---------- End to end ----------

  /** However often a conversation asks for payment, and whatever else happens on the rail meanwhile: all its
      payments under one approval are of one authorization, reserved for exactly the checkout, the amount and the
      mandate that were persisted with the approval; the executor is called for it at most once, for that amount;
      and an order made of it is for that amount. */
  lemma OnePaymentPerApproval(h: Hasher, d: Derived, agents: map<Id, AgentRow>, credentials: map<Id, CredentialRow>,
                              moves: seq<Move>, i: nat)
    requires h.CollisionFree() && d.CollisionFree()
    requires i < |Play(h, d, Begin(agents, credentials), moves).paid|
    ensures var j := Play(h, d, Begin(agents, credentials), moves);
      var p, db, executed := j.paid[i], j.rail.db, j.rail.executed;
      && p.authorizationId in db.authorizations
      && db.authorizations[p.authorizationId].mandateId == p.approval.mandateId
      && db.authorizations[p.authorizationId].checkoutHash == p.approval.checkoutHash
      && db.authorizations[p.authorizationId].reservedAmount == p.approval.amount
      && (forall k :: 0 <= k < |j.paid| && j.paid[k].approval.approvalId == p.approval.approvalId ==>
           j.paid[k].authorizationId == p.authorizationId)
      && (forall k :: 0 <= k < |executed| && executed[k].authorizationId == p.authorizationId ==>
           executed[k].amount == p.approval.amount)
      && (forall k, l :: 0 <= k < l < |executed| ==>
           !(executed[k].authorizationId == executed[l].authorizationId == p.authorizationId))
      && (p.authorizationId in db.orders ==> db.orders[p.authorizationId].total == p.approval.amount)
  {
    hide C.SessionInv, RailInv, Capacity.WithinLimits, Sourced, Play;
    var j := Play(h, d, Begin(agents, credentials), moves);
    BeginInv(h, d, agents, credentials);
    PlayKeeps(h, d, Begin(agents, credentials), moves);
    assert PaidFor(d, j.rail.db, j.paid[i]);
    forall k | 0 <= k < |j.paid| && j.paid[k].approval.approvalId == j.paid[i].approval.approvalId
      ensures j.paid[k].authorizationId == j.paid[i].authorizationId
    {
      assert PaidFor(d, j.rail.db, j.paid[k]);
    }
    ChargedAmount(h, j.rail, j.paid[i].authorizationId);
  }

  lemma ChargedAmount(h: Hasher, s: System, id: Id)
    requires Inv(h, s) && id in s.db.authorizations
    ensures forall k :: 0 <= k < |s.executed| && s.executed[k].authorizationId == id ==>
      s.executed[k].amount == s.db.authorizations[id].reservedAmount
    ensures id in s.db.orders ==> s.db.orders[id].total == s.db.authorizations[id].reservedAmount
    ensures HoldsApproved(s.db, id) ==> id in s.db.orders && s.db.authorizations[id].status == AuthorizationStatus.CONSUMED
  {
    hide RailInv, RowsAgree, Capacity.WithinLimits, AtMostOnce;
    InvAt(h, s.db, id);
    PaymentAmount(s.db, id);
  }

  lemma PaymentAmount(db: Db, id: Id)
    requires RowsAgree(db, id) && id in db.authorizations
    ensures id in db.payments ==> db.payments[id].amount == db.authorizations[id].reservedAmount
    ensures id in db.orders ==> db.orders[id].total == db.authorizations[id].reservedAmount
    ensures HoldsApproved(db, id) ==> id in db.orders && db.authorizations[id].status == AuthorizationStatus.CONSUMED
  {
    hide Evidence;
  }

  lemma SearchNeverPays(c: T.Conversation, env: T.Env, intent: P.Intent, operation: T.Operation, id: Id)
    requires P.Complete(intent.fields)
    ensures T.Pays(id) !in T.Searches(C.CONFIGURED, c, env, intent, operation).events
  {
    hide T.Matches, T.CheckoutGuard;
  }

  lemma ToolPaysWhatWasAllowed(view: T.Conversation, a: T.PurchaseAnswers, id: Id)
    requires T.Pays(id) in T.PurchaseTool(view, a).1
    ensures a.decision == Some(Some(id))
  {
    hide T.PurchaseGuard;
  }

  lemma ConfirmPaysWhatWasAllowed(c: T.Conversation, env: T.Env, intent: P.Intent, offers: seq<T.Offer>,
                                  operation: T.Operation, approval: T.Approval, id: Id)
    requires T.Pays(id) in T.Confirms(C.CONFIGURED, c, env, intent, offers, operation, approval).events
    ensures env.purchase.decision == Some(Some(id))
  {
    hide T.PurchaseGuard, T.ActivateGuard, T.PurchaseTool;
    var bound := c.(intent := intent.(confirmation := T.Confirm(approval, P.CONFIRMED)), operation := operation);
    ToolPaysWhatWasAllowed(bound, env.purchase, id);
  }

  /** A message pays only the authorization that the verification of the same message allowed. */
  lemma TurnPaysWhatWasAllowed(c: T.Conversation, env: T.Env, id: Id)
    requires c.state != T.AWAITING_OFFER_SELECTION && T.Pays(id) in T.Turn(C.CONFIGURED, c, env).events
    ensures env.purchase.decision == Some(Some(id))
  {
    hide P.Apply, P.WithConventions, T.Searches, P.Complete, T.Confirms;
    var a := P.Apply(c.intent, P.WithConventions(c.intent.fields, env.runtime.proposal, env.extracted), env.now);
    var intent := T.WorkingIntent(c, a);
    var operation := if a.invalidatesDownstream then T.EMPTY_OPERATION else c.operation;
    if P.Complete(intent.fields) { SearchNeverPays(c, env, intent, operation, id); }
    if operation.pending.Some? {
      var offers := if a.invalidatesDownstream then [] else c.offers;
      if T.Pays(id) in T.Confirms(C.CONFIGURED, c, env, intent, offers, operation, operation.pending.value).events {
        ConfirmPaysWhatWasAllowed(c, env, intent, offers, operation, operation.pending.value, id);
      }
    }
  }

  predicate BecomesCompleted(j: Joint, done: Joint) {
    j.session.conversation.state != T.COMPLETED && done.session.conversation.state == T.COMPLETED
  }

  /** The payment that completed the conversation: under the approval it waited on, with the authorization it holds. */
  predicate CompletedBy(j: Joint, done: Joint, p: Payment) {
    && C.LastPersisted(j.session.trace) == Some(p.approval) && p in done.paid
    && done.session.conversation.operation.authorizationId == Some(p.authorizationId)
  }

  predicate OrderedFor(db: Db, p: Payment) {
    && HoldsApproved(db, p.authorizationId)
    && p.authorizationId in db.orders && db.orders[p.authorizationId].total == p.approval.amount
    && p.authorizationId in db.authorizations
    && db.authorizations[p.authorizationId].mandateId == p.approval.mandateId
    && db.authorizations[p.authorizationId].status == AuthorizationStatus.CONSUMED
  }

  /** A conversation that becomes COMPLETED has an order, for good: for the authorization it holds, made from an
      approved payment of exactly the amount, under exactly the mandate, that its approval was persisted with. */
  lemma CompletedHasOrder(h: Hasher, d: Derived, agents: map<Id, AgentRow>, credentials: map<Id, CredentialRow>,
                          moves: seq<Move>, move: Move, more: seq<Move>)
    requires h.CollisionFree() && d.CollisionFree()
    requires BecomesCompleted(Play(h, d, Begin(agents, credentials), moves),
                              Moved(h, d, Play(h, d, Begin(agents, credentials), moves), move))
    ensures var j := Play(h, d, Begin(agents, credentials), moves);
      var done := Moved(h, d, j, move);
      exists p :: CompletedBy(j, done, p) && OrderedFor(Play(h, d, done, more).rail.db, p)
  {
    hide Play, Moved, JointInv, CompletedBy, OrderedFor, HistoryKept;
    var j := Play(h, d, Begin(agents, credentials), moves);
    BeginInv(h, d, agents, credentials);
    PlayKeeps(h, d, Begin(agents, credentials), moves);
    var done := Moved(h, d, j, move);
    MoveKeeps(h, d, j, move);
    PlayKeeps(h, d, done, more);
    CompletingMove(h, d, j, move);
    var p :| CompletedBy(j, done, p) && PaidFor(d, done.rail.db, p) && HoldsApproved(done.rail.db, p.authorizationId);
    OrderForGood(h, d, done, Play(h, d, done, more), p);
  }

  lemma OrderForGood(h: Hasher, d: Derived, done: Joint, later: Joint, p: Payment)
    requires JointInv(h, d, done) && JointInv(h, d, later) && HistoryKept(h, done.rail.db, later.rail.db)
    requires PaidFor(d, done.rail.db, p) && HoldsApproved(done.rail.db, p.authorizationId)
    ensures OrderedFor(later.rail.db, p)
  {
    hide C.SessionInv, Inv, Keyed, HistoryKept;
    PaidStays(h, d, done.rail.db, later.rail.db, p);
    ChargedAmount(h, done.rail, p.authorizationId);
    OrderStays(h, done.rail.db, later.rail.db, p.authorizationId);
    ChargedAmount(h, later.rail, p.authorizationId);
  }

  lemma OrderStays(h: Hasher, db: Db, db': Db, id: Id)
    requires HistoryKept(h, db, db') && id in db.orders && id in db.payments
    ensures id in db'.orders && id in db'.payments && db'.payments[id] == db.payments[id]
  {
    assert OrderKept(db, db', id) && AttemptKept(db, db', id);
  }

  lemma CompletingMove(h: Hasher, d: Derived, j: Joint, move: Move)
    requires JointInv(h, d, j) && JointInv(h, d, Moved(h, d, j, move)) && BecomesCompleted(j, Moved(h, d, j, move))
    ensures var done := Moved(h, d, j, move);
      exists p :: CompletedBy(j, done, p) && PaidFor(d, done.rail.db, p) && HoldsApproved(done.rail.db, p.authorizationId)
  {
    hide T.Turn, C.TurnInv, RailAfter, Inv, Keyed, AskedWith, AllHashed, Next, Reserve, ListsStale, PaidFor;
    var c, env, bound := j.session.conversation, move.env, C.LastPersisted(j.session.trace);
    var r := T.Turn(C.CONFIGURED, c, env);
    C.CompletingTurn(c, env, bound);
    var id := r.conversation.operation.authorizationId.value;
    TurnPaysWhatWasAllowed(c, env, id);
    var done := Moved(h, d, j, move);
    assert AsksRail(r.events);
    var p := Payment(bound.value, id);
    assert done.paid[|done.paid| - 1] == p;
    assert CompletedBy(j, done, p) && PaidFor(d, done.rail.db, p) && HoldsApproved(done.rail.db, id);
  }
}
