/** Who pays for a disputed purchase, traced to the opening that evaluated it (disputes/service.ts). */
module Liability {
  import opened Common
  import opened AuditEvents
  import opened Ledger
  import opened PaymentResults
  import opened Rail
  import opened RailInvariant
  import opened ReserveInvariant
  import opened Disputes
  import opened DisputeProcess
  import P = PaymentProcess

  /** Step `k` of a run opened a dispute with `input` over the purchase `order`, while the agent of its
      authorization covered the disputing principal (`covered`), or did not. */
  ghost predicate OpenedAt(h: Hasher, s: System, steps: seq<Step>, k: nat, input: OpenInput, id: Id, order: OrderRow, covered: bool) {
    && k < |steps| && steps[k].OpenStep? && steps[k].input == input
    && var db := Run(h, s, steps[..k]).rail.db;
    && id in db.orders && db.orders[id] == order && order.receiptId == input.receiptId
    && id in db.authorizations && db.authorizations[id].principalId == input.principalId
    && db.authorizations[id].agentId in db.agents
    && var agent := db.agents[db.authorizations[id].agentId];
    && covered == (agent.accessScope == PUBLIC || agent.principalId == input.principalId)
  }

  ghost predicate Opened(h: Hasher, s: System, steps: seq<Step>, input: OpenInput, id: Id, order: OrderRow, covered: bool) {
    exists k: nat :: OpenedAt(h, s, steps, k, input, id, order, covered)
  }

  lemma {:induction false} RunLast(h: Hasher, s: System, steps: seq<Step>)
    requires steps != []
    ensures Run(h, s, steps) == Next(h, Run(h, s, steps[..|steps| - 1]), steps[|steps| - 1])
    decreases |steps|
  {
    hide Next;
    if |steps| == 1 {
      assert steps[..0] == [] && steps[1..] == [];
    } else {
      RunLast(h, Next(h, s, steps[0]), steps[1..]);
      assert steps[1..][..|steps| - 2] == steps[..|steps| - 1][1..];
    }
  }

  lemma OpenedBefore(h: Hasher, s: System, steps: seq<Step>, input: OpenInput, id: Id, order: OrderRow, covered: bool)
    requires steps != [] && Opened(h, s, steps[..|steps| - 1], input, id, order, covered)
    ensures Opened(h, s, steps, input, id, order, covered)
  {
    hide Run;
    var init := steps[..|steps| - 1];
    var k: nat :| OpenedAt(h, s, init, k, input, id, order, covered);
    assert init[..k] == steps[..k];
    assert OpenedAt(h, s, steps, k, input, id, order, covered);
  }

  /** Held between the reads and the transaction: the checks are those of some opening. */
  ghost predicate TracedOpening(h: Hasher, s: System, steps: seq<Step>, p: Prepared) {
    Opened(h, s, steps, p.input, p.graph.authorizationId, p.graph.order, p.checks.agentIdentity)
  }

  /** A dispute row as its opening, with the agent's coverage then, demands it. */
  ghost predicate FiledAs(row: DisputeRow, input: OpenInput, id: Id, order: OrderRow, covered: bool) {
    && row.authorizationId == id && row.order == order
    && row.principalId == input.principalId && row.reason == input.reason && row.key == input.key
    && row.correlationId == input.correlationId
    && row.adjudication == if covered then Adjudication(AUTHORIZED, PRINCIPAL, NO_CHARGEBACK)
                           else Adjudication(UNAUTHORIZED, MERCHANT, CHARGEBACK_RECORDED)
  }

  ghost predicate TracedRow(h: Hasher, s: System, steps: seq<Step>, row: DisputeRow) {
    exists input, id, order, covered :: Opened(h, s, steps, input, id, order, covered) && FiledAs(row, input, id, order, covered)
  }

  lemma OpeningTraced(h: Hasher, s: System, steps: seq<Step>, pid: nat)
    requires h.CollisionFree() && steps != [] && steps[|steps| - 1].OpenStep?
    requires var before := Run(h, s, steps[..|steps| - 1]); DisputeInv(h, before)
    requires var before := Run(h, s, steps[..|steps| - 1]); pid !in before.open && pid in Next(h, before, steps[|steps| - 1]).open
    ensures TracedOpening(h, s, steps, Next(h, Run(h, s, steps[..|steps| - 1]), steps[|steps| - 1]).open[pid])
  {
    hide Run, Open, RailInv, P.CallsBacked, P.AtMostOnce, IsGraph, ScopeCovers;
    var before, n := Run(h, s, steps[..|steps| - 1]), |steps| - 1;
    var input := steps[n].input;
    var p := Next(h, before, steps[n]).open[pid];
    OpenIsSound(h, before.rail.db, before.disputes, input);
    OpenGraph(before.rail.db, input, p.graph);
    assert OpenedAt(h, s, steps, n, input, p.graph.authorizationId, p.graph.order, p.checks.agentIdentity);
  }

  lemma OpenGraph(db: Db, input: OpenInput, g: Graph)
    requires IsGraph(db, input.receiptId, g)
    ensures g.order.receiptId == input.receiptId && g.authorizationId in db.authorizations
    ensures db.authorizations[g.authorizationId].agentId in db.agents
    ensures g.agent == db.agents[db.authorizations[g.authorizationId].agentId]
    ensures ScopeCovers(g.agent, input.principalId) <==> g.agent.accessScope == PUBLIC || g.agent.principalId == input.principalId
  {
  }

  /** Everything held and everything filed is traced to an opening of the run. */
  ghost predicate AllTraced(h: Hasher, s: System, steps: seq<Step>, t: System) {
    && (forall pid :: pid in t.open ==> TracedOpening(h, s, steps, t.open[pid]))
    && (forall d :: d in t.disputes ==> TracedRow(h, s, steps, t.disputes[d]))
  }

  lemma TracedLonger(h: Hasher, s: System, steps: seq<Step>, t: System)
    requires steps != [] && AllTraced(h, s, steps[..|steps| - 1], t)
    ensures AllTraced(h, s, steps, t)
  {
    hide Opened, FiledAs;
    var init := steps[..|steps| - 1];
    forall pid | pid in t.open ensures TracedOpening(h, s, steps, t.open[pid]) {
      var p := t.open[pid];
      OpenedBefore(h, s, steps, p.input, p.graph.authorizationId, p.graph.order, p.checks.agentIdentity);
    }
    forall d | d in t.disputes ensures TracedRow(h, s, steps, t.disputes[d]) {
      var input, id, order, covered :| Opened(h, s, init, input, id, order, covered) && FiledAs(t.disputes[d], input, id, order, covered);
      OpenedBefore(h, s, steps, input, id, order, covered);
    }
  }

  lemma FiledTraced(h: Hasher, s: System, steps: seq<Step>, t: System, pid: nat, draw: Draw)
    requires pid in t.open && AllTraced(h, s, steps, t) && SoundPrepared(t.rail.db, t.open[pid])
    ensures AllTraced(h, s, steps, Next(h, t, CommitStep(pid, draw)))
  {
    hide Opened, LogDispute, Commit;
    CommitShape(h, t.disputes, t.rail.db.audit, t.open[pid], draw);
    var p := t.open[pid];
    var row := NewDispute(p, draw);
    assert FiledAs(row, p.input, p.graph.authorizationId, p.graph.order, p.checks.agentIdentity);
    assert TracedRow(h, s, steps, row);
  }

  lemma {:induction false} RunIsTraced(h: Hasher, s: System, steps: seq<Step>)
    requires h.CollisionFree() && DisputeInv(h, s) && s.open == map[] && s.disputes == map[]
    ensures AllTraced(h, s, steps, Run(h, s, steps)) && DisputeInv(h, Run(h, s, steps))
    decreases |steps|
  {
    hide TracedOpening, TracedRow, Next, DisputeInv;
    RunKeeps(h, s, steps);
    if steps != [] {
      var init, last := steps[..|steps| - 1], steps[|steps| - 1];
      var t := Run(h, s, init);
      RunLast(h, s, steps);
      RunIsTraced(h, s, init);
      TracedLonger(h, s, steps, t);
      StepTraced(h, s, steps, t, last);
    }
  }

  lemma StepTraced(h: Hasher, s: System, steps: seq<Step>, t: System, last: Step)
    requires h.CollisionFree() && steps != [] && t == Run(h, s, steps[..|steps| - 1]) && last == steps[|steps| - 1]
    requires DisputeInv(h, t) && AllTraced(h, s, steps, t)
    ensures AllTraced(h, s, steps, Next(h, t, last))
  {
    hide TracedOpening, TracedRow, Run, Open, Commit, P.Next, P.Inv, SoundRow, SoundPrepared;
    match last
    case OpenStep(pid, _) => if pid !in t.open && pid in Next(h, t, last).open { OpeningTraced(h, s, steps, pid); }
    case CommitStep(pid, draw) => if pid in t.open { FiledTraced(h, s, steps, t, pid, draw); }
    case _ =>
  }

  /** Over every interleaving, whoever pays is settled by the opening that was filed: a filed dispute holds the
      principal liable, without a chargeback, exactly when that opening found the agent's row covering the
      principal; otherwise the merchant, with one. It carries that opening's own request. */
  lemma LiabilityExactly(h: Hasher, agents: map<Id, AgentRow>, credentials: map<Id, CredentialRow>, steps: seq<Step>, d: Id)
    requires h.CollisionFree() && d in Run(h, Fresh(agents, credentials), steps).disputes
    ensures var row := Run(h, Fresh(agents, credentials), steps).disputes[d];
      exists input, covered ::
        && Opened(h, Fresh(agents, credentials), steps, input, row.authorizationId, row.order, covered)
        && FiledAs(row, input, row.authorizationId, row.order, covered)
  {
    hide Opened, DisputeInv;
    FreshInv(h, agents, credentials);
    RunIsTraced(h, Fresh(agents, credentials), steps);
    var row := Run(h, Fresh(agents, credentials), steps).disputes[d];
    assert TracedRow(h, Fresh(agents, credentials), steps, row);
  }

  // ---------- Every purchase can be disputed ----------

  /** No two orders share an id, a receipt, a checkout, a payment, an audit event or a key. */
  ghost predicate UniqueOrders(orders: map<Id, OrderRow>) {
    forall j, k :: j in orders && k in orders && j != k ==>
      && orders[j].orderId != orders[k].orderId && orders[j].receiptId != orders[k].receiptId
      && orders[j].checkoutId != orders[k].checkoutId && orders[j].paymentId != orders[k].paymentId
      && orders[j].auditEventId != orders[k].auditEventId && orders[j].idempotencyKey != orders[k].idempotencyKey
  }

  lemma PersistOrders(h: Hasher, db: Db, p: PersistInput)
    requires UniqueOrders(db.orders)
    ensures UniqueOrders(Persist(h, db, p).1.orders)
  {
    hide WriteResult;
    if id :| OwnsAttempt(db, id, p.paymentAttemptId) && Persist(h, db, p) == PersistFor(h, db, id, p) {
      if WriteResult(h, db, id, p).Ok? { WrittenOrders(h, db, id, p); }
    }
  }

  lemma WrittenOrders(h: Hasher, db: Db, id: Id, p: PersistInput)
    requires UniqueOrders(db.orders) && id in db.payments && WriteResult(h, db, id, p).Ok?
    ensures UniqueOrders(WriteResult(h, db, id, p).value.orders)
  {
    hide UniqueOrders, ApprovedOrder, Log, StableIdentifier, ResultEvent, PaymentIdTaken;
    if p.result.Approved? { NewOrderUnique(h, ResultWritten(h, db, id, p), id, db.payments[id], p); }
  }

  lemma NewOrderUnique(h: Hasher, db: Db, id: Id, payment: PaymentRow, p: PersistInput)
    requires UniqueOrders(db.orders) && id in db.authorizations && p.result.Approved?
    requires ApprovedOrder(h, db, id, payment, p).Ok?
    ensures UniqueOrders(ApprovedOrder(h, db, id, payment, p).value.orders)
  {
    hide Log, NewOrder, OrderEvent;
  }

  lemma RailStepOrders(h: Hasher, s: P.System, step: P.Step)
    requires UniqueOrders(s.db.orders) && P.Inv(h, s) && h.CollisionFree()
    ensures UniqueOrders(P.Next(h, s, step).db.orders)
  {
    hide Persist, Reserve, Claim, Log, UniqueOrders, RailInv, P.CallsBacked, P.AtMostOnce;
    match step
    case ReserveStep(input) => if ListsStale(s.db, input) { ReserveOrders(h, s.db, input); }
    case ClaimStep(_, c) => ClaimOrders(h, s.db, c);
    case PersistStep(pid, now, e1, e2) =>
      if pid in s.calls && s.calls[pid].HasResult? {
        PersistOrders(h, s.db, PersistInput(s.calls[pid].attemptId, s.calls[pid].result, now, e1, e2));
      }
    case ReconcileStep(attempt, key, p) =>
      if attempt.Ok? { PersistOrders(h, s.db, p.(paymentAttemptId := attempt.value.0)); }
    case _ =>
  }

  lemma ReserveOrders(h: Hasher, db: Db, input: ReserveInput)
    requires h.CollisionFree() && RailInv(h, db) && ListsStale(db, input)
    ensures Reserve(h, db, input).1.orders == db.orders
  {
    hide RailInv, Allows, ListsStale, SharedGrow;
    var db' := Reserve(h, db, input).1;
    if db' != db {
      RefreshedKeeps(h, db, input);
      if Reserve(h, db, input).0.Ok? { AllowedReserveKeeps(h, db, input); }
    }
  }

  lemma ClaimOrders(h: Hasher, db: Db, c: ClaimInput)
    ensures Claim(h, db, c).1.orders == db.orders
  {
    hide Log, BindingsHold, Refusal, AttemptTaken;
  }

  lemma {:induction false} RunOrders(h: Hasher, s: System, steps: seq<Step>)
    requires h.CollisionFree() && DisputeInv(h, s) && UniqueOrders(s.rail.db.orders)
    ensures UniqueOrders(Run(h, s, steps).rail.db.orders)
    decreases |steps|
  {
    hide P.Next, Commit, Open, P.Inv, UniqueOrders, SoundRow, SoundPrepared;
    if steps != [] {
      if steps[0].RailStep? { RailStepOrders(h, s.rail, steps[0].step); }
      NextKeeps(h, s, steps[0]);
      RunOrders(h, Next(h, s, steps[0]), steps[1..]);
    }
  }

  /** Over every run of the rail a checkout is ordered once, a payment pays for one order, and a receipt is of one. */
  lemma {:induction false} OrdersStayUnique(h: Hasher, s: P.System, steps: seq<P.Step>)
    requires h.CollisionFree() && P.Inv(h, s) && UniqueOrders(s.db.orders)
    ensures UniqueOrders(P.Run(h, s, steps).db.orders)
    decreases |steps|
  {
    hide P.Next, P.Inv, UniqueOrders, P.HistoryKept;
    if steps != [] {
      RailStepOrders(h, s, steps[0]);
      P.NextKeeps(h, s, steps[0]);
      OrdersStayUnique(h, P.Next(h, s, steps[0]), steps[1..]);
    }
  }

  /** The disputing principal's own purchase with this receipt. */
  ghost predicate Owns(db: Db, input: OpenInput, id: Id) {
    id in db.orders && db.orders[id].receiptId == input.receiptId
    && id in db.authorizations && db.authorizations[id].principalId == input.principalId
  }

  ghost predicate KeyUsed(disputes: map<Id, DisputeRow>, key: Id, d: Id) {
    d in disputes && disputes[d].key == key
  }

  /** How `open` answers before its transaction, in every reachable state: a known key is replayed for the same
      request and refused for another; otherwise the purchase is evaluated exactly when it is the principal's own. */
  lemma OpensExactly(h: Hasher, agents: map<Id, AgentRow>, credentials: map<Id, CredentialRow>, steps: seq<Step>, input: OpenInput)
    requires h.CollisionFree()
    ensures var s := Run(h, Fresh(agents, credentials), steps);
      var r := Open(h, s.rail.db, s.disputes, input);
      && (forall d :: KeyUsed(s.disputes, input.key, d) ==>
           r == if s.disputes[d].principalId == input.principalId && s.disputes[d].order.receiptId == input.receiptId
                   && s.disputes[d].reason == input.reason then Ok(Replayed(d)) else Err(KeyReused))
      && ((forall d :: !KeyUsed(s.disputes, input.key, d)) ==>
           && (r == Err(ReceiptNotFound) <==> forall id :: !Owns(s.rail.db, input, id))
           && (r.Ok? <==> exists id :: Owns(s.rail.db, input, id))
           && forall id :: Owns(s.rail.db, input, id) ==>
                && r.Ok? && r.value.Evaluated? && r.value.prepared.input == input
                && r.value.prepared.graph.authorizationId == id && r.value.prepared.graph.order == s.rail.db.orders[id])
  {
    hide P.Inv, Run, SoundRow, SoundPrepared, Open;
    FreshInv(h, agents, credentials);
    RunKeeps(h, Fresh(agents, credentials), steps);
    RunOrders(h, Fresh(agents, credentials), steps);
    var s := Run(h, Fresh(agents, credentials), steps);
    RailOf(h, s);
    OpenReplays(h, s.rail.db, s.disputes, input);
    if forall d :: !KeyUsed(s.disputes, input.key, d) { OpenEvaluates(h, s.rail.db, s.disputes, input); }
  }

  lemma RailOf(h: Hasher, s: System)
    requires P.Inv(h, s.rail)
    ensures RailInv(h, s.rail.db)
  {
  }

  lemma OpenReplays(h: Hasher, db: Db, disputes: map<Id, DisputeRow>, input: OpenInput)
    requires UniqueDisputes(disputes)
    ensures forall d :: KeyUsed(disputes, input.key, d) ==>
      Open(h, db, disputes, input) ==
        if disputes[d].principalId == input.principalId && disputes[d].order.receiptId == input.receiptId
           && disputes[d].reason == input.reason then Ok(Replayed(d)) else Err(KeyReused)
  {
    hide IsGraph, Evaluate;
  }

  lemma OpenEvaluates(h: Hasher, db: Db, disputes: map<Id, DisputeRow>, input: OpenInput)
    requires h.CollisionFree() && RailInv(h, db) && UniqueOrders(db.orders)
    requires forall d :: !KeyUsed(disputes, input.key, d)
    ensures var r := Open(h, db, disputes, input);
      && (r == Err(ReceiptNotFound) <==> forall id :: !Owns(db, input, id))
      && (r.Ok? <==> exists id :: Owns(db, input, id))
      && forall id :: Owns(db, input, id) ==>
           && r.Ok? && r.value.Evaluated? && r.value.prepared.input == input
           && r.value.prepared.graph.authorizationId == id && r.value.prepared.graph.order == db.orders[id]
  {
    hide RailInv, IsGraph, Evaluate, UniqueDisputes;
    forall g | IsGraph(db, input.receiptId, g)
      ensures Evaluate(h, db, g).Ok?
      ensures g.authorizationId in db.orders && db.orders[g.authorizationId] == g.order && g.order.receiptId == input.receiptId
      ensures g.authorizationId in db.authorizations && db.authorizations[g.authorizationId] == g.authorization
    {
      ChecksOfOrder(h, db, input.receiptId, g);
      GraphRows(h, db, input.receiptId, g);
      JoinedRows(db, input.receiptId, g);
    }
    forall id | Owns(db, input, id) ensures exists g :: IsGraph(db, input.receiptId, g) { OrderHasGraph(h, db, id); }
    forall d | d in disputes ensures disputes[d].key != input.key { assert !KeyUsed(disputes, input.key, d); }
    OpenUnused(h, db, disputes, input);
    if g :| IsGraph(db, input.receiptId, g) && g.authorization.principalId == input.principalId {
      assert Owns(db, input, g.authorizationId);
    }
  }

  /** Under an unused key `open` evaluates some join of the receipt, if there is one. */
  lemma OpenUnused(h: Hasher, db: Db, disputes: map<Id, DisputeRow>, input: OpenInput)
    requires forall d :: d in disputes ==> disputes[d].key != input.key
    ensures var r := Open(h, db, disputes, input);
      || (r == Err(ReceiptNotFound) && forall g :: !IsGraph(db, input.receiptId, g))
      || exists g :: IsGraph(db, input.receiptId, g) &&
           r == if g.authorization.principalId != input.principalId then Err(ReceiptNotFound)
                else if Evaluate(h, db, g).Err? then Err(BrokenEvidence)
                else Ok(Evaluated(Prepared(input, g, Evaluate(h, db, g).value)))
  {
    hide IsGraph, Evaluate;
  }

  lemma JoinedRows(db: Db, receiptId: Id, g: Graph)
    requires IsGraph(db, receiptId, g)
    ensures g.order.receiptId == receiptId
    ensures g.authorizationId in db.authorizations && db.authorizations[g.authorizationId] == g.authorization
  {
  }

  ghost predicate InLedger(audit: seq<AuditRow>, key: string, eventId: Id) {
    exists i :: 0 <= i < |audit| && (audit[i].deduplicationKey == Some(key) || audit[i].event.eventId == eventId)
  }

  /** An id drawn for one of the three events, or the key of one of them, is taken. */
  ghost predicate EventTaken(audit: seq<AuditRow>, draw: Draw) {
    || InLedger(audit, "dispute:" + draw.disputeId + ":opened", draw.eventIds.0)
    || InLedger(audit, "dispute:" + draw.disputeId + ":evidence", draw.eventIds.1)
    || InLedger(audit, "dispute:" + draw.disputeId + ":resolved", draw.eventIds.2)
    || draw.eventIds.0 == draw.eventIds.1 || draw.eventIds.1 == draw.eventIds.2 || draw.eventIds.0 == draw.eventIds.2
  }

  /** How the transaction of `open` answers, from the columns of the disputes table: a known key is replayed or
      refused, a receipt is disputed once, and everything else is filed unless an id or a key is taken. */
  lemma CommitsExactly(h: Hasher, disputes: map<Id, DisputeRow>, audit: seq<AuditRow>, p: Prepared, draw: Draw)
    requires h.CollisionFree() && LedgerInv(h, audit) && UniqueDisputes(disputes)
    ensures var (r, disputes', audit') := Commit(h, disputes, audit, p, draw);
      && (forall d :: KeyUsed(disputes, p.input.key, d) ==>
           && disputes' == disputes && audit' == audit
           && r == if disputes[d].principalId == p.input.principalId && disputes[d].order.receiptId == p.input.receiptId
                      && disputes[d].reason == p.input.reason then Ok(d) else Err(KeyReused))
      && ((forall d :: !KeyUsed(disputes, p.input.key, d)) ==>
           && (r == Err(AlreadyDisputed) <==> exists d :: d in disputes && disputes[d].order.receiptId == p.input.receiptId)
           && (r.Err? ==> disputes' == disputes && audit' == audit)
           && (r.Err? ==> r.error == AlreadyDisputed || draw.disputeId in disputes || EventTaken(audit, draw))
           && (r.Ok? ==>
                && r.value == draw.disputeId && draw.disputeId !in disputes && disputes' == disputes[draw.disputeId := disputes'[draw.disputeId]]
                && FiledAs(disputes'[draw.disputeId], p.input, p.graph.authorizationId, p.graph.order,
                           p.checks == Checks(true, true, true, true, true, true))
                && disputes'[draw.disputeId].openedAt == draw.now && (!EventTaken(audit, draw) ==> |audit'| == |audit| + 3)))
  {
    hide LedgerInv, LogDispute, UniqueDisputes, EventTaken;
    if d :| KeyUsed(disputes, p.input.key, d) {
      KeyAnswers(h, disputes, audit, p, draw);
    } else {
      forall d | d in disputes ensures disputes[d].key != p.input.key { assert !KeyUsed(disputes, p.input.key, d); }
      if !EventTaken(audit, draw) { DisputeLogged(h, audit, p, draw); }
    }
  }

  lemma KeyAnswers(h: Hasher, disputes: map<Id, DisputeRow>, audit: seq<AuditRow>, p: Prepared, draw: Draw)
    requires UniqueDisputes(disputes)
    ensures forall d :: KeyUsed(disputes, p.input.key, d) ==>
      Commit(h, disputes, audit, p, draw) ==
        (if disputes[d].principalId == p.input.principalId && disputes[d].order.receiptId == p.input.receiptId
            && disputes[d].reason == p.input.reason then Ok(d) else Err(KeyReused), disputes, audit)
  {
    hide LogDispute;
  }

  lemma LogsUntaken(h: Hasher, audit: seq<AuditRow>, input: AppendInput, eventId: Id)
    requires h.CollisionFree() && LedgerInv(h, audit) && input.deduplicationKey.Some?
    requires !InLedger(audit, input.deduplicationKey.value, eventId)
    ensures Log(h, audit, input, eventId).Ok?
    ensures var audit' := Log(h, audit, input, eventId).value.audit;
      && LedgerInv(h, audit') && |audit'| == |audit| + 1
      && forall key, id :: !InLedger(audit, key, id) && Some(key) != input.deduplicationKey && id != eventId ==> !InLedger(audit', key, id)
  {
    AppendOutcome(h, audit, input, eventId);
    AppendKeepsInv(h, audit, input, eventId);
  }

  lemma DisputeKeys(id: string)
    ensures id + ":opened" != id + ":evidence" && id + ":opened" != id + ":resolved" && id + ":evidence" != id + ":resolved"
  {
    assert (id + ":evidence")[|id| + 1] == 'e' && (id + ":resolved")[|id| + 1] == 'r';
    assert |id + ":opened"| != |id + ":evidence"|;
  }

  lemma DisputeLogged(h: Hasher, audit: seq<AuditRow>, p: Prepared, draw: Draw)
    requires h.CollisionFree() && LedgerInv(h, audit) && !EventTaken(audit, draw)
    ensures LogDispute(h, audit, p, draw).Ok? && |LogDispute(h, audit, p, draw).value| == |audit| + 3
  {
    hide LedgerInv, Log, InLedger;
    DisputeKeys("dispute:" + draw.disputeId);
    var e1 := DisputeEvent(p, draw, "dispute.opened", draw.bodies.0, "opened");
    var e2 := DisputeEvent(p, draw, "dispute.evidence_evaluated", draw.bodies.1, "evidence");
    var e3 := DisputeEvent(p, draw, "dispute.resolved", draw.bodies.2, "resolved");
    StepKeys(draw.disputeId);
    LogsUntaken(h, audit, e1, draw.eventIds.0);
    var audit1 := Log(h, audit, e1, draw.eventIds.0).value.audit;
    LogsUntaken(h, audit1, e2, draw.eventIds.1);
    LogsUntaken(h, Log(h, audit1, e2, draw.eventIds.1).value.audit, e3, draw.eventIds.2);
  }

  lemma StepKeys(id: string)
    ensures "dispute:" + id + ":" + "opened" == "dispute:" + id + ":opened"
    ensures "dispute:" + id + ":" + "evidence" == "dispute:" + id + ":evidence"
    ensures "dispute:" + id + ":" + "resolved" == "dispute:" + id + ":resolved"
  {
    assert ":" + "opened" == ":opened" && ":" + "evidence" == ":evidence" && ":" + "resolved" == ":resolved";
    assert ("dispute:" + id) + ":" + "opened" == ("dispute:" + id) + (":" + "opened");
    assert ("dispute:" + id) + ":" + "evidence" == ("dispute:" + id) + (":" + "evidence");
    assert ("dispute:" + id) + ":" + "resolved" == ("dispute:" + id) + (":" + "resolved");
  }
}
