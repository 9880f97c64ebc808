/** Opening disputes beside a running payment rail: the evidence is evaluated first and the dispute is
    inserted later, in a transaction of its own (disputes/service.ts). */
module DisputeProcess {
  import opened Common
  import opened AuditEvents
  import opened Ledger
  import opened Rail
  import opened RailInvariant
  import opened ReserveInvariant
  import opened Disputes
  import P = PaymentProcess
  import Capacity

  // ---------- Every order, at any later time ----------

  lemma OrderStays(h: Hasher, db: Db, db': Db, id: Id)
    requires P.HistoryKept(h, db, db')
    ensures P.OrderKept(db, db', id) && P.AuthorizationKept(db, db', id)
  {
  }

  /** End to end: take any run of reservations, claims, executor calls, results, reconciliations and
      mandate changes, and any order it produced. Whatever happens afterwards, a dispute over its receipt
      finds it, and holds the principal liable exactly when the agent's row covers the mandate's principal;
      otherwise the merchant, with a chargeback. */
  lemma EveryOrderIsDefensible(h: Hasher, agents: map<Id, AgentRow>, credentials: map<Id, CredentialRow>,
                               steps: seq<P.Step>, more: seq<P.Step>, id: Id)
    requires h.CollisionFree() && id in P.Run(h, P.Fresh(agents, credentials), steps).db.orders
    ensures var s := P.Run(h, P.Fresh(agents, credentials), steps);
      var order, later := s.db.orders[id], P.Run(h, s, more).db;
      && (exists g :: IsGraph(later, order.receiptId, g) && g.order == order)
      && forall g :: IsGraph(later, order.receiptId, g) ==>
           && Evaluate(h, later, g).Ok?
           && Adjudicate(Evaluate(h, later, g).value)
              == if g.agent.accessScope == PUBLIC || g.agent.principalId == g.mandate.terms.principalId
                 then Adjudication(AUTHORIZED, PRINCIPAL, NO_CHARGEBACK)
                 else Adjudication(UNAUTHORIZED, MERCHANT, CHARGEBACK_RECORDED)
  {
    hide RailInv, P.HistoryKept, Evaluate, IsGraph;
    var s := P.Run(h, P.Fresh(agents, credentials), steps);
    P.FreshInv(h, agents, credentials);
    P.RunKeeps(h, P.Fresh(agents, credentials), steps);
    P.RunKeeps(h, s, more);
    var later := P.Run(h, s, more).db;
    OrderStays(h, s.db, later, id);
    OrderHasGraph(h, later, id);
    forall g | IsGraph(later, s.db.orders[id].receiptId, g)
      ensures Evaluate(h, later, g).Ok?
      ensures Adjudicate(Evaluate(h, later, g).value)
           == if g.agent.accessScope == PUBLIC || g.agent.principalId == g.mandate.terms.principalId
              then Adjudication(AUTHORIZED, PRINCIPAL, NO_CHARGEBACK)
              else Adjudication(UNAUTHORIZED, MERCHANT, CHARGEBACK_RECORDED)
    {
      VerdictExactly(h, later, s.db.orders[id].receiptId, g);
    }
  }

  // ---------- Opening a dispute ----------

  datatype OpenInput = OpenInput(principalId: Id, receiptId: Id, reason: string, key: Id, correlationId: Id)

  datatype DisputeRow = DisputeRow(
    authorizationId: Id,
    order: OrderRow,
    principalId: Id,
    reason: string,
    checks: Checks,
    adjudication: Adjudication,
    key: Id,
    correlationId: Id,
    openedAt: Instant)

  datatype DisputeError =
    | KeyReused | AlreadyDisputed | ReceiptNotFound | BrokenEvidence | DuplicateDispute | LedgerFailed(cause: RailError)

  /** What `open` holds between its reads and its transaction. */
  datatype Prepared = Prepared(input: OpenInput, graph: Graph, checks: Checks)

  datatype Opening = Replayed(disputeId: Id) | Evaluated(prepared: Prepared)

  predicate SameRequest(input: OpenInput, row: DisputeRow) {
    row.principalId == input.principalId && row.order.receiptId == input.receiptId && row.reason == input.reason
  }

  function AnswerReplay(input: OpenInput, disputeId: Id, row: DisputeRow): Result<Id, DisputeError> {
    if SameRequest(input, row) then Ok(disputeId) else Err(KeyReused)
  }

  /** Everything `open` does before its transaction. */
  ghost function Open(h: Hasher, db: Db, disputes: map<Id, DisputeRow>, input: OpenInput): Result<Opening, DisputeError> {
    if d :| d in disputes && disputes[d].key == input.key then
      var replay := AnswerReplay(input, d, disputes[d]);
      if replay.Err? then Err(replay.error) else Ok(Replayed(d))
    else if g :| IsGraph(db, input.receiptId, g) then
      if g.authorization.principalId != input.principalId then Err(ReceiptNotFound)
      else
        var checks := Evaluate(h, db, g);
        if checks.Err? then Err(BrokenEvidence) else Ok(Evaluated(Prepared(input, g, checks.value)))
    else Err(ReceiptNotFound)
  }

  /** Ids drawn for the dispute and its three events, and the events' canonical payload texts. */
  datatype Draw = Draw(disputeId: Id, now: Instant, eventIds: (Id, Id, Id), bodies: (string, string, string))

  function DisputeEvent(p: Prepared, draw: Draw, name: string, body: string, step: string): AppendInput {
    AppendInput(p.input.correlationId, draw.disputeId, OtherPayload(name, body), draw.now,
                Some("dispute:" + draw.disputeId + ":" + step))
  }

  /** The three events of a new dispute, appended one after the other. */
  ghost function LogDispute(h: Hasher, audit: seq<AuditRow>, p: Prepared, draw: Draw): Result<seq<AuditRow>, RailError> {
    var first := Log(h, audit, DisputeEvent(p, draw, "dispute.opened", draw.bodies.0, "opened"), draw.eventIds.0);
    if first.Err? then Err(first.error)
    else
      var evidence := Log(h, first.value.audit,
        DisputeEvent(p, draw, "dispute.evidence_evaluated", draw.bodies.1, "evidence"), draw.eventIds.1);
      if evidence.Err? then Err(evidence.error)
      else
        var resolved := Log(h, evidence.value.audit,
          DisputeEvent(p, draw, "dispute.resolved", draw.bodies.2, "resolved"), draw.eventIds.2);
        if resolved.Err? then Err(resolved.error) else Ok(resolved.value.audit)
  }

  function NewDispute(p: Prepared, draw: Draw): DisputeRow {
    DisputeRow(p.graph.authorizationId, p.graph.order, p.input.principalId, p.input.reason, p.checks, Adjudicate(p.checks),
               p.input.key, p.input.correlationId, draw.now)
  }

  predicate ReceiptDisputed(disputes: map<Id, DisputeRow>, receiptId: Id) {
    exists d :: d in disputes && disputes[d].order.receiptId == receiptId
  }

  /** The transaction of `open`: the dispute it returns, and the two tables after it. */
  ghost function Commit(h: Hasher, disputes: map<Id, DisputeRow>, audit: seq<AuditRow>, p: Prepared, draw: Draw)
    : (r: (Result<Id, DisputeError>, map<Id, DisputeRow>, seq<AuditRow>))
  {
    if d :| d in disputes && disputes[d].key == p.input.key then (AnswerReplay(p.input, d, disputes[d]), disputes, audit)
    else if ReceiptDisputed(disputes, p.input.receiptId) then (Err(AlreadyDisputed), disputes, audit)
    else if draw.disputeId in disputes then (Err(DuplicateDispute), disputes, audit)
    else
      var logged := LogDispute(h, audit, p, draw);
      if logged.Err? then (Err(LedgerFailed(logged.error)), disputes, audit)
      else (Ok(draw.disputeId), disputes[draw.disputeId := NewDispute(p, draw)], logged.value)
  }

  // ---------- Disputes beside the rail, in any interleaving ----------

  datatype System = System(rail: P.System, disputes: map<Id, DisputeRow>, open: map<nat, Prepared>)

  datatype Step =
    | RailStep(step: P.Step)
    | OpenStep(pid: nat, input: OpenInput)
    | CommitStep(pid: nat, draw: Draw)
    | AbandonStep(pid: nat)

  ghost function Next(h: Hasher, s: System, step: Step): System {
    match step
    case RailStep(inner) => s.(rail := P.Next(h, s.rail, inner))
    case OpenStep(pid, input) =>
      var r := Open(h, s.rail.db, s.disputes, input);
      if pid !in s.open && r.Ok? && r.value.Evaluated? then s.(open := s.open[pid := r.value.prepared]) else s
    case CommitStep(pid, draw) =>
      if pid !in s.open then s
      else
        var (r, disputes', audit') := Commit(h, s.disputes, s.rail.db.audit, s.open[pid], draw);
        System(s.rail.(db := s.rail.db.(audit := audit')), disputes', s.open - {pid})
    case AbandonStep(pid) => s.(open := s.open - {pid})
  }

  ghost function Run(h: Hasher, s: System, steps: seq<Step>): System
    decreases |steps|
  {
    if steps == [] then s else Run(h, Next(h, s, steps[0]), steps[1..])
  }

  /** Evaluated checks fail at most in the agent's scope, and belong to an order that is still there. */
  ghost predicate Grounded(db: Db, id: Id, order: OrderRow, principalId: Id, checks: Checks) {
    && id in db.orders && db.orders[id] == order
    && id in db.authorizations && db.authorizations[id].principalId == principalId
    && checks == Checks(true, true, true, checks.agentIdentity, true, true)
  }

  ghost predicate UniqueDisputes(disputes: map<Id, DisputeRow>) {
    forall d, e :: d in disputes && e in disputes && d != e ==>
      disputes[d].order.receiptId != disputes[e].order.receiptId && disputes[d].key != disputes[e].key
  }

  ghost predicate SoundRow(db: Db, row: DisputeRow) {
    && Grounded(db, row.authorizationId, row.order, row.principalId, row.checks)
    && row.adjudication == Adjudicate(row.checks)
  }

  ghost predicate SoundPrepared(db: Db, p: Prepared) {
    && Grounded(db, p.graph.authorizationId, p.graph.order, p.input.principalId, p.checks)
    && p.graph.order.receiptId == p.input.receiptId
  }

  ghost predicate DisputeInv(h: Hasher, s: System) {
    && P.Inv(h, s.rail)
    && UniqueDisputes(s.disputes)
    && (forall d :: d in s.disputes ==> SoundRow(s.rail.db, s.disputes[d]))
    && (forall pid :: pid in s.open ==> SoundPrepared(s.rail.db, s.open[pid]))
  }

  /** Reading the evidence in a reachable state never fails, and only the agent's scope is left to judge. */
  lemma OpenIsSound(h: Hasher, db: Db, disputes: map<Id, DisputeRow>, input: OpenInput)
    requires h.CollisionFree() && RailInv(h, db)
    ensures var r := Open(h, db, disputes, input);
      && r != Err(BrokenEvidence)
      && (r.Ok? && r.value.Evaluated? ==>
           var p := r.value.prepared;
           && p.input == input && SoundPrepared(db, p) && IsGraph(db, input.receiptId, p.graph)
           && p.checks.agentIdentity == ScopeCovers(p.graph.agent, input.principalId))
  {
    hide RowsAgree, LedgerInv, Evaluate, RailInv;
    forall g | IsGraph(db, input.receiptId, g)
      ensures Evaluate(h, db, g) == Ok(Checks(true, true, true, ScopeCovers(g.agent, g.authorization.principalId), true, true))
      ensures g.authorizationId in db.orders && db.orders[g.authorizationId] == g.order
    {
      ChecksOfOrder(h, db, input.receiptId, g);
      GraphRows(h, db, input.receiptId, g);
    }
  }

  lemma LogDisputeKeeps(h: Hasher, db: Db, p: Prepared, draw: Draw)
    requires h.CollisionFree() && RailInv(h, db) && LogDispute(h, db.audit, p, draw).Ok?
    ensures RailInv(h, db.(audit := LogDispute(h, db.audit, p, draw).value))
  {
    hide RailInv, Log;
    var e1 := DisputeEvent(p, draw, "dispute.opened", draw.bodies.0, "opened");
    OtherEventKeeps(h, db, e1, draw.eventIds.0);
    var db1 := db.(audit := Log(h, db.audit, e1, draw.eventIds.0).value.audit);
    var e2 := DisputeEvent(p, draw, "dispute.evidence_evaluated", draw.bodies.1, "evidence");
    OtherEventKeeps(h, db1, e2, draw.eventIds.1);
    var db2 := db1.(audit := Log(h, db1.audit, e2, draw.eventIds.1).value.audit);
    OtherEventKeeps(h, db2, DisputeEvent(p, draw, "dispute.resolved", draw.bodies.2, "resolved"), draw.eventIds.2);
  }

  lemma GroundedLater(h: Hasher, db: Db, db': Db, id: Id, order: OrderRow, principalId: Id, checks: Checks)
    requires P.HistoryKept(h, db, db') && Grounded(db, id, order, principalId, checks)
    ensures Grounded(db', id, order, principalId, checks)
  {
    OrderStays(h, db, db', id);
  }

  lemma SoundLater(h: Hasher, s: System, rail: P.System)
    requires DisputeInv(h, s) && P.Inv(h, rail) && P.HistoryKept(h, s.rail.db, rail.db)
    ensures DisputeInv(h, s.(rail := rail))
  {
    hide P.HistoryKept, P.Inv, Grounded;
    forall d | d in s.disputes ensures SoundRow(rail.db, s.disputes[d]) {
      var row := s.disputes[d];
      GroundedLater(h, s.rail.db, rail.db, row.authorizationId, row.order, row.principalId, row.checks);
    }
    forall pid | pid in s.open ensures SoundPrepared(rail.db, s.open[pid]) {
      var p := s.open[pid];
      GroundedLater(h, s.rail.db, rail.db, p.graph.authorizationId, p.graph.order, p.input.principalId, p.checks);
    }
  }

  /** A commit writes nothing, or one dispute with a new key and a new receipt, and its three events. */
  lemma CommitShape(h: Hasher, disputes: map<Id, DisputeRow>, audit: seq<AuditRow>, p: Prepared, draw: Draw)
    ensures var (_, disputes', audit') := Commit(h, disputes, audit, p, draw);
      || (disputes' == disputes && audit' == audit)
      || (&& draw.disputeId !in disputes && disputes' == disputes[draw.disputeId := NewDispute(p, draw)]
          && LogDispute(h, audit, p, draw) == Ok(audit')
          && forall d :: d in disputes ==> disputes[d].key != p.input.key && disputes[d].order.receiptId != p.input.receiptId)
  {
    hide LogDispute, NewDispute, AnswerReplay;
  }

  lemma NewDisputeUnique(disputes: map<Id, DisputeRow>, id: Id, row: DisputeRow)
    requires UniqueDisputes(disputes) && id !in disputes
    requires forall d :: d in disputes ==> disputes[d].key != row.key && disputes[d].order.receiptId != row.order.receiptId
    ensures UniqueDisputes(disputes[id := row])
  {
  }

  lemma CommittedDisputes(h: Hasher, db: Db, disputes: map<Id, DisputeRow>, p: Prepared, draw: Draw)
    requires UniqueDisputes(disputes) && SoundPrepared(db, p)
    ensures var disputes' := Commit(h, disputes, db.audit, p, draw).1;
      && UniqueDisputes(disputes')
      && (forall d :: d in disputes ==> d in disputes' && disputes'[d] == disputes[d])
      && (forall d :: d in disputes' && d !in disputes ==> SoundRow(db, disputes'[d]))
      && (disputes' != disputes ==> LogDispute(h, db.audit, p, draw) == Ok(Commit(h, disputes, db.audit, p, draw).2))
      && (disputes' == disputes ==> Commit(h, disputes, db.audit, p, draw).2 == db.audit)
  {
    hide LogDispute, Grounded, Commit, UniqueDisputes;
    CommitShape(h, disputes, db.audit, p, draw);
    if draw.disputeId !in disputes && Commit(h, disputes, db.audit, p, draw).1 != disputes {
      NewDisputeUnique(disputes, draw.disputeId, NewDispute(p, draw));
    }
  }

  lemma CommitKeeps(h: Hasher, s: System, pid: nat, draw: Draw)
    requires h.CollisionFree() && DisputeInv(h, s) && pid in s.open
    ensures var s' := Next(h, s, CommitStep(pid, draw));
      && DisputeInv(h, s') && P.HistoryKept(h, s.rail.db, s'.rail.db)
      && (forall d :: d in s.disputes ==> d in s'.disputes && s'.disputes[d] == s.disputes[d])
  {
    hide RailInv, P.HistoryKept, SoundRow, SoundPrepared, P.CallsBacked, P.AtMostOnce, Capacity.WithinLimits, LogDispute, Commit;
    var s', p := Next(h, s, CommitStep(pid, draw)), s.open[pid];
    P.HistorySame(h, s.rail.db);
    CommittedDisputes(h, s.rail.db, s.disputes, p, draw);
    assert DisputeInv(h, System(s.rail, s'.disputes, s'.open));
    if s'.disputes != s.disputes {
      LogDisputeKeeps(h, s.rail.db, p, draw);
      SharedSameRail(h, s.rail.db, s'.rail.db);
      P.SharedStepKeeps(h, s.rail, s'.rail.db);
      SoundLater(h, System(s.rail, s'.disputes, s'.open), s'.rail);
    } else {
      assert s'.rail == s.rail;
    }
  }

  lemma SharedSameRail(h: Hasher, db: Db, db': Db)
    requires RailInv(h, db) && db'.mandates == db.mandates && db'.agents == db.agents && db'.checkouts == db.checkouts
    ensures SharedGrow(h, db, db')
  {
    InvAt(h, db, "");
    SharedSame(h, db, db');
  }

  lemma NextKeeps(h: Hasher, s: System, step: Step)
    requires h.CollisionFree() && DisputeInv(h, s)
    ensures var s' := Next(h, s, step);
      && DisputeInv(h, s') && P.HistoryKept(h, s.rail.db, s'.rail.db)
      && (forall d :: d in s.disputes ==> d in s'.disputes && s'.disputes[d] == s.disputes[d])
  {
    hide RailInv, P.HistoryKept, P.CallsBacked, P.AtMostOnce, Capacity.WithinLimits, Commit, Open, Grounded, P.Next;
    P.HistorySame(h, s.rail.db);
    match step
    case RailStep(inner) =>
      P.NextKeeps(h, s.rail, inner);
      SoundLater(h, s, P.Next(h, s.rail, inner));
    case OpenStep(_, input) => OpenIsSound(h, s.rail.db, s.disputes, input);
    case CommitStep(pid, draw) => if pid in s.open { CommitKeeps(h, s, pid, draw); }
    case AbandonStep(_) =>
  }

  lemma {:induction false} RunKeeps(h: Hasher, s: System, steps: seq<Step>)
    requires h.CollisionFree() && DisputeInv(h, s)
    ensures var s' := Run(h, s, steps);
      && DisputeInv(h, s')
      && (forall d :: d in s.disputes ==> d in s'.disputes && s'.disputes[d] == s.disputes[d])
    decreases |steps|
  {
    hide DisputeInv, Next;
    if steps != [] {
      NextKeeps(h, s, steps[0]);
      RunKeeps(h, Next(h, s, steps[0]), steps[1..]);
    }
  }

  ghost function Fresh(agents: map<Id, AgentRow>, credentials: map<Id, CredentialRow>): System {
    System(P.Fresh(agents, credentials), map[], map[])
  }

  lemma FreshInv(h: Hasher, agents: map<Id, AgentRow>, credentials: map<Id, CredentialRow>)
    ensures DisputeInv(h, Fresh(agents, credentials))
  {
    P.FreshInv(h, agents, credentials);
  }

  /** Over every interleaving of openings with the rail: a filed dispute never changes, it is the only one
      of its receipt, its purchase still exists, and the agent's scope was the only check it could fail. */
  lemma DisputesFiledOnce(h: Hasher, agents: map<Id, AgentRow>, credentials: map<Id, CredentialRow>,
                          steps: seq<Step>, more: seq<Step>, d: Id)
    requires h.CollisionFree() && d in Run(h, Fresh(agents, credentials), steps).disputes
    ensures var s := Run(h, Fresh(agents, credentials), steps);
      var row, later := s.disputes[d], Run(h, s, more);
      && d in later.disputes && later.disputes[d] == row
      && (forall e :: e in later.disputes && later.disputes[e].order.receiptId == row.order.receiptId ==> e == d)
      && row.authorizationId in later.rail.db.orders && later.rail.db.orders[row.authorizationId] == row.order
      && row.adjudication == if row.checks.agentIdentity then Adjudication(AUTHORIZED, PRINCIPAL, NO_CHARGEBACK)
                             else Adjudication(UNAUTHORIZED, MERCHANT, CHARGEBACK_RECORDED)
  {
    hide P.Inv, P.HistoryKept;
    FreshInv(h, agents, credentials);
    RunKeeps(h, Fresh(agents, credentials), steps);
    RunKeeps(h, Run(h, Fresh(agents, credentials), steps), more);
  }

  lemma Reopened(h: Hasher, db: Db, disputes: map<Id, DisputeRow>, d: Id, p: Prepared, draw: Draw)
    requires UniqueDisputes(disputes) && d in disputes
    ensures var row := disputes[d];
      var answer := Commit(h, disputes, db.audit, p, draw);
      && (p.input.key == row.key ==> answer == (AnswerReplay(p.input, d, row), disputes, db.audit))
      && (p.input.receiptId == row.order.receiptId && p.input.key != row.key ==>
           answer.0.Err? && answer.1 == disputes && answer.2 == db.audit)
      && (p.input.key == row.key && SameRequest(p.input, row) ==> Open(h, db, disputes, p.input) == Ok(Replayed(d)))
  {
    hide LogDispute, IsGraph, Evaluate;
  }

  /** Once a dispute is filed, however much later: its key with its own data answers with it, its key with
      other data is refused, and its receipt cannot be disputed under another key; nothing is written. */
  lemma ReopeningIsIdempotent(h: Hasher, s: System, d: Id, more: seq<Step>, p: Prepared, draw: Draw)
    requires h.CollisionFree() && DisputeInv(h, s) && d in s.disputes
    ensures var later, row := Run(h, s, more), s.disputes[d];
      var answer := Commit(h, later.disputes, later.rail.db.audit, p, draw);
      && (p.input.key == row.key || p.input.receiptId == row.order.receiptId ==>
           answer.1 == later.disputes && answer.2 == later.rail.db.audit)
      && (p.input.key == row.key ==>
           answer.0 == if SameRequest(p.input, row) then Ok(d) else Err(KeyReused))
      && (p.input.key == row.key && SameRequest(p.input, row) ==>
           Open(h, later.rail.db, later.disputes, p.input) == Ok(Replayed(d)))
      && (p.input.receiptId == row.order.receiptId && p.input.key != row.key ==> answer.0.Err?)
  {
    hide P.Inv, SoundRow, SoundPrepared, Run, Commit, Open;
    RunKeeps(h, s, more);
    var later := Run(h, s, more);
    Reopened(h, later.rail.db, later.disputes, d, p, draw);
  }
}
