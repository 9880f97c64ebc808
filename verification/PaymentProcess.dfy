/** Any number of concurrent `pay` calls, crashing anywhere, beside reconciliations, reservations and
    mandate changes (payments/service.ts over payments/store.ts). Each transaction is one step; the
    executor call between claim and persist is a step of its own with an arbitrary outcome. */
module PaymentProcess {
  import opened Common
  import opened AuditEvents
  import opened Ledger
  import opened PaymentResults
  import opened Rail
  import opened RailInvariant
  import opened ReserveInvariant
  import opened Capacity

  /** Where one `pay` call stands. A call that crashed, failed or returned has no entry. */
  datatype PayCall =
    | HoldsClaim(attemptId: Id, key: Id, authorizationId: Id, amount: Money)
    | HasResult(attemptId: Id, result: PaymentResult)

  datatype ExecutorCall = ExecutorCall(authorizationId: Id, attemptId: Id, key: Id, amount: Money)

  datatype System = System(db: Db, calls: map<nat, PayCall>, executed: seq<ExecutorCall>)

  datatype Step =
    | ReserveStep(reserve: ReserveInput)
    | ClaimStep(pid: nat, claim: ClaimInput)
    | ExecuteStep(pid: nat, outcome: Option<PaymentResult>)
    | PersistStep(pid: nat, now: Instant, resultEventId: Id, orderEventId: Id)
    | CrashStep(pid: nat)
    | ReconcileStep(attempt: Result<(Id, Id), RailError>, key: Id, persist: PersistInput)
    | MandateStep(mandates: map<Id, M.MandateRow>)
    | DirectoryStep(agents: map<Id, AgentRow>, credentials: map<Id, CredentialRow>)
    | AuditStep(event: AppendInput, eventId: Id)

  /** The guard of `pay`: the executor's result must be for the claimed authorization and amount. */
  predicate ResultMatchesClaim(call: PayCall, result: PaymentResult)
    requires call.HoldsClaim?
  {
    result.authorizationId == call.authorizationId && result.amount == call.amount
  }

  /** One atomic step; a step that cannot happen in `s` changes nothing. */
  ghost function Next(h: Hasher, s: System, step: Step): System {
    match step
    case ReserveStep(input) =>
      if ListsStale(s.db, input) then s.(db := Reserve(h, s.db, input).1) else s
    case ClaimStep(pid, c) =>
      var (r, db') := Claim(h, s.db, c);
      if pid in s.calls then s
      else if r.Ok? && r.value.Claimed? then
        s.(db := db', calls := s.calls[pid := HoldsClaim(r.value.paymentAttemptId, r.value.idempotencyKey,
                                                         r.value.authorizationId, r.value.amount)])
      else s.(db := db')
    case ExecuteStep(pid, outcome) =>
      if pid !in s.calls || !s.calls[pid].HoldsClaim? then s
      else
        var call := s.calls[pid];
        var executed := s.executed + [ExecutorCall(call.authorizationId, call.attemptId, call.key, call.amount)];
        if outcome.Some? && ResultMatchesClaim(call, outcome.value) then
          s.(executed := executed, calls := s.calls[pid := HasResult(call.attemptId, outcome.value)])
        else s.(executed := executed, calls := s.calls - {pid})
    case PersistStep(pid, now, e1, e2) =>
      if pid !in s.calls || !s.calls[pid].HasResult? then s
      else
        var call := s.calls[pid];
        s.(db := Persist(h, s.db, PersistInput(call.attemptId, call.result, now, e1, e2)).1, calls := s.calls - {pid})
    case CrashStep(pid) => s.(calls := s.calls - {pid})
    case ReconcileStep(attempt, key, p) => s.(db := PersistReconciled(h, s.db, attempt, key, p).1)
    case MandateStep(mandates) =>
      if M.Evolves(h, s.db.mandates, mandates) then s.(db := s.db.(mandates := mandates)) else s
    case DirectoryStep(agents, credentials) =>
      if s.db.agents.Keys <= agents.Keys then s.(db := s.db.(agents := agents, credentials := credentials)) else s
    case AuditStep(event, eventId) =>
      var logged := Log(h, s.db.audit, event, eventId);
      if event.payload.OtherPayload? && logged.Ok? then s.(db := s.db.(audit := logged.value.audit)) else s
  }

  ghost function Run(h: Hasher, s: System, steps: seq<Step>): System
    decreases |steps|
  {
    if steps == [] then s else Run(h, Next(h, s, steps[0]), steps[1..])
  }

  // ---------- The invariant ----------

  /** The attempt row behind an outstanding claim or an executor call. */
  ghost predicate BackedBy(db: Db, id: Id, attemptId: Id, key: Id, amount: Money) {
    && id in db.payments
    && db.payments[id].paymentAttemptId == attemptId && db.payments[id].providerIdempotencyKey == key
    && db.payments[id].amount == amount
  }

  ghost predicate CallsBacked(s: System) {
    && (forall pid :: pid in s.calls && s.calls[pid].HoldsClaim? ==>
         BackedBy(s.db, s.calls[pid].authorizationId, s.calls[pid].attemptId, s.calls[pid].key, s.calls[pid].amount))
    && (forall i :: 0 <= i < |s.executed| ==>
         BackedBy(s.db, s.executed[i].authorizationId, s.executed[i].attemptId, s.executed[i].key, s.executed[i].amount))
  }

  /** An authorization has at most one claim held or one executor call made, never both. */
  ghost predicate AtMostOnce(s: System) {
    && (forall i, j :: 0 <= i < j < |s.executed| ==> s.executed[i].authorizationId != s.executed[j].authorizationId)
    && (forall p, q :: p in s.calls && q in s.calls && p != q && s.calls[p].HoldsClaim? && s.calls[q].HoldsClaim? ==>
         s.calls[p].authorizationId != s.calls[q].authorizationId)
    && (forall p, i :: p in s.calls && s.calls[p].HoldsClaim? && 0 <= i < |s.executed| ==>
         s.calls[p].authorizationId != s.executed[i].authorizationId)
  }

  ghost predicate Inv(h: Hasher, s: System) {
    RailInv(h, s.db) && WithinLimits(s.db) && CallsBacked(s) && AtMostOnce(s)
  }

  ghost predicate AttemptKept(db: Db, db': Db, id: Id) {
    id in db.payments ==>
      && id in db'.payments && Climbs(db.payments[id], db'.payments[id])
      && BackedBy(db', id, db.payments[id].paymentAttemptId, db.payments[id].providerIdempotencyKey, db.payments[id].amount)
      && (id in db.orders ==> db'.payments[id] == db.payments[id])
  }

  ghost predicate OrderKept(db: Db, db': Db, id: Id) {
    id in db.orders ==> id in db'.orders && db'.orders[id] == db.orders[id]
  }

  ghost predicate AuthorizationKept(db: Db, db': Db, id: Id) {
    id in db.authorizations ==>
      && id in db'.authorizations
      && db'.authorizations[id] == db.authorizations[id].(status := db'.authorizations[id].status)
      && (db.authorizations[id].status in {AuthorizationStatus.CONSUMED, FAILED, CANCELLED} ==>
           db'.authorizations[id].status == db.authorizations[id].status)
  }

  /** Attempts are never replaced, their results only climb, orders are never rewritten, final authorizations
      never moved. */
  ghost predicate HistoryKept(h: Hasher, db: Db, db': Db) {
    && SharedGrow(h, db, db')
    && forall id :: AttemptKept(db, db', id) && OrderKept(db, db', id) && AuthorizationKept(db, db', id)
  }

  lemma HistoryKeptTransitive(h: Hasher, a: Db, b: Db, c: Db)
    requires HistoryKept(h, a, b) && HistoryKept(h, b, c)
    ensures HistoryKept(h, a, c)
  {
    forall id ensures AttemptKept(a, c, id) && OrderKept(a, c, id) && AuthorizationKept(a, c, id) {
      assert AttemptKept(a, b, id) && OrderKept(a, b, id) && AuthorizationKept(a, b, id);
      assert AttemptKept(b, c, id) && OrderKept(b, c, id) && AuthorizationKept(b, c, id);
      if id in a.payments { ClimbsOn(a.payments[id], b.payments[id], c.payments[id]); }
    }
  }

  lemma BackingKeptAt(h: Hasher, db: Db, db': Db, id: Id, attemptId: Id, key: Id, amount: Money)
    requires HistoryKept(h, db, db') && BackedBy(db, id, attemptId, key, amount)
    ensures BackedBy(db', id, attemptId, key, amount)
  {
    assert AttemptKept(db, db', id);
  }

  lemma HistorySame(h: Hasher, db: Db)
    requires RailInv(h, db)
    ensures HistoryKept(h, db, db)
  {
    hide RowsAgree, LedgerInv;
    InvAt(h, db, "");
    SharedSame(h, db, db);
  }

  lemma BackingKept(h: Hasher, s: System, db': Db)
    requires CallsBacked(s) && HistoryKept(h, s.db, db')
    ensures CallsBacked(s.(db := db'))
  {
    hide HistoryKept, BackedBy;
    forall pid | pid in s.calls && s.calls[pid].HoldsClaim?
      ensures BackedBy(db', s.calls[pid].authorizationId, s.calls[pid].attemptId, s.calls[pid].key, s.calls[pid].amount)
    {
      BackingKeptAt(h, s.db, db', s.calls[pid].authorizationId, s.calls[pid].attemptId, s.calls[pid].key, s.calls[pid].amount);
    }
    forall i | 0 <= i < |s.executed|
      ensures BackedBy(db', s.executed[i].authorizationId, s.executed[i].attemptId, s.executed[i].key, s.executed[i].amount)
    {
      BackingKeptAt(h, s.db, db', s.executed[i].authorizationId, s.executed[i].attemptId, s.executed[i].key, s.executed[i].amount);
    }
  }

  // ---------- Each transaction keeps history ----------

  lemma ClaimHistory(h: Hasher, db: Db, c: ClaimInput)
    requires h.CollisionFree() && RailInv(h, db)
    ensures HistoryKept(h, db, Claim(h, db, c).1)
    ensures var r := Claim(h, db, c).0;
      r.Ok? && r.value.Claimed? ==>
        && r.value.authorizationId !in db.payments
        && BackedBy(Claim(h, db, c).1, r.value.authorizationId, r.value.paymentAttemptId, r.value.idempotencyKey, r.value.amount)
  {
    hide RailInv, Claim, HistoryKept, SharedGrow;
    var (r, db') := Claim(h, db, c);
    ClaimKeeps(h, db, c);
    if r.Err? || r.value.Completed? { HistorySame(h, db); } else { NewClaimHistory(h, db, c); }
  }

  lemma NewClaimHistory(h: Hasher, db: Db, c: ClaimInput)
    requires Claim(h, db, c).0.Ok? && Claim(h, db, c).0.value.Claimed? && SharedGrow(h, db, Claim(h, db, c).1)
    ensures HistoryKept(h, db, Claim(h, db, c).1)
    ensures var r := Claim(h, db, c).0.value;
      && r.authorizationId !in db.payments
      && BackedBy(Claim(h, db, c).1, r.authorizationId, r.paymentAttemptId, r.idempotencyKey, r.amount)
  {
    hide Log, BindingsHold, ExistingClaim, SharedGrow;
  }

  lemma WriteHistory(h: Hasher, db: Db, id: Id, p: PersistInput)
    requires h.CollisionFree() && RailInv(h, db) && id in db.payments && WriteResult(h, db, id, p).Ok?
    requires ResultShape(db.payments[id]) && Writes(db.payments[id], p.result)
    ensures HistoryKept(h, db, WriteResult(h, db, id, p).value)
  {
    hide RailInv, WriteResult, RowsAgree, SharedGrow, HistoryKept, Writes, ResultShape;
    InvAt(h, db, id);
    WriteResultErrors(h, db, id, p);
    WriteShape(h, db, id, p);
    SharedSame(h, db, WriteResult(h, db, id, p).value);
    OneWriteKeepsHistory(h, db, WriteResult(h, db, id, p).value, id, p.result);
  }

  lemma WriteShape(h: Hasher, db: Db, id: Id, p: PersistInput)
    requires RowsAgree(db, id) && id in db.payments && WriteResult(h, db, id, p).Ok?
    ensures var db' := WriteResult(h, db, id, p).value;
      && id in db.authorizations && id !in db.orders && db.authorizations[id].status == PAYMENT_PENDING
      && db'.authorizations == db.authorizations[id := db.authorizations[id].(status := AuthorizationStatusFor(p.result))]
      && forall other :: other in db.orders ==> other in db'.orders && db'.orders[other] == db.orders[other]
  {
    hide Log, RowsAgree;
    NoOrderWhilePending(db, id);
  }

  lemma OneWriteKeepsHistory(h: Hasher, db: Db, db': Db, id: Id, result: PaymentResult)
    requires SharedGrow(h, db, db') && id in db.payments && id in db.authorizations && id !in db.orders
    requires ResultShape(db.payments[id]) && Writes(db.payments[id], result)
    requires db.authorizations[id].status == PAYMENT_PENDING
    requires db'.payments == db.payments[id := WithResult(db.payments[id], result)]
    requires db'.authorizations == db.authorizations[id := db.authorizations[id].(status := AuthorizationStatusFor(result))]
    requires forall other :: other in db.orders ==> other in db'.orders && db'.orders[other] == db.orders[other]
    ensures HistoryKept(h, db, db')
  {
    WriteClimbs(db.payments[id], result);
    hide SharedGrow, Climbs, Writes, ResultShape, Rank;
    NothingClimbs();
  }

  lemma NothingClimbs()
    ensures forall row: PaymentRow :: Climbs(row, row)
  {
  }

  lemma NoOrderWhilePending(db: Db, id: Id)
    requires RowsAgree(db, id)
    ensures id in db.authorizations && db.authorizations[id].status == PAYMENT_PENDING ==> id !in db.orders
  {
    hide Evidence;
  }

  lemma PersistRow(h: Hasher, db: Db, id: Id)
    requires RailInv(h, db) && id in db.payments
    ensures ResultShape(db.payments[id])
  {
    hide LedgerInv, Evidence;
    InvAt(h, db, id);
    ShapeOf(db, id);
  }

  lemma PersistHistory(h: Hasher, db: Db, p: PersistInput)
    requires h.CollisionFree() && RailInv(h, db)
    ensures HistoryKept(h, db, Persist(h, db, p).1)
  {
    hide WriteResult, RailInv, HistoryKept;
    HistorySame(h, db);
    if id :| OwnsAttempt(db, id, p.paymentAttemptId) && Persist(h, db, p) == PersistFor(h, db, id, p) {
      PersistRow(h, db, id);
      PersistForCases(h, db, id, p);
      if Writes(db.payments[id], p.result) && WriteResult(h, db, id, p).Ok? { WriteHistory(h, db, id, p); }
    }
  }

  lemma ReserveHistory(h: Hasher, db: Db, input: ReserveInput)
    requires h.CollisionFree() && RailInv(h, db) && ListsStale(db, input)
    ensures HistoryKept(h, db, Reserve(h, db, input).1)
  {
    hide RailInv, Allows, ListsStale, SharedGrow, HistoryKept;
    var db' := Reserve(h, db, input).1;
    if db' == db {
      HistorySame(h, db);
    } else {
      ReserveKeeps(h, db, input);
      RefreshedKeeps(h, db, input);
      if Reserve(h, db, input).0.Ok? { AllowedReserveKeeps(h, db, input); }
      hide Reserve, Refreshed;
      GrowingKeepsHistory(h, db, db');
    }
  }

  lemma GrowingKeepsHistory(h: Hasher, db: Db, db': Db)
    requires SharedGrow(h, db, db') && db'.payments == db.payments && db'.orders == db.orders
    requires forall id :: id in db.authorizations ==>
      && id in db'.authorizations
      && (db'.authorizations[id] == db.authorizations[id]
          || (db.authorizations[id].status == RESERVED && db'.authorizations[id] == db.authorizations[id].(status := CANCELLED)))
    ensures HistoryKept(h, db, db')
  {
    hide SharedGrow;
  }

  // ---------- One step ----------

  lemma DbStepKeeps(h: Hasher, s: System, db': Db)
    requires Inv(h, s) && RailInv(h, db') && WithinLimits(db') && HistoryKept(h, s.db, db')
    ensures Inv(h, s.(db := db'))
  {
    hide RailInv, WithinLimits, HistoryKept;
    BackingKept(h, s, db');
  }

  lemma ClaimStepKeeps(h: Hasher, s: System, pid: nat, c: ClaimInput)
    requires h.CollisionFree() && Inv(h, s)
    ensures var s' := Next(h, s, ClaimStep(pid, c)); Inv(h, s') && HistoryKept(h, s.db, s'.db)
  {
    hide RailInv, WithinLimits, HistoryKept, Claim;
    var (r, db') := Claim(h, s.db, c);
    HistorySame(h, s.db);
    ClaimKeeps(h, s.db, c);
    ClaimHistory(h, s.db, c);
    ClaimMoves(h, s.db, c);
    SharedEvolves(h, s.db, db');
    MovesKeepLimits(h, s.db, db');
    BackingKept(h, s, db');
    if pid !in s.calls && r.Ok? && r.value.Claimed? {
      NewClaimFirst(s, r.value.authorizationId);
    }
  }

  lemma SharedEvolves(h: Hasher, db: Db, db': Db)
    requires SharedGrow(h, db, db')
    ensures M.Evolves(h, db.mandates, db'.mandates)
  {
  }

  /** Nothing was ever claimed or executed for an authorization that has no attempt row yet. */
  lemma NewClaimFirst(s: System, id: Id)
    requires CallsBacked(s) && id !in s.db.payments
    ensures forall p :: p in s.calls && s.calls[p].HoldsClaim? ==> s.calls[p].authorizationId != id
    ensures forall i :: 0 <= i < |s.executed| ==> s.executed[i].authorizationId != id
  {
  }

  lemma PersistDbKeeps(h: Hasher, s: System, p: PersistInput)
    requires h.CollisionFree() && Inv(h, s)
    ensures var db' := Persist(h, s.db, p).1; Inv(h, s.(db := db')) && HistoryKept(h, s.db, db')
  {
    hide RailInv, WithinLimits, HistoryKept, Persist;
    var db' := Persist(h, s.db, p).1;
    PersistKeeps(h, s.db, p);
    PersistHistory(h, s.db, p);
    PersistMoves(h, s.db, p);
    SharedEvolves(h, s.db, db');
    MovesKeepLimits(h, s.db, db');
    DbStepKeeps(h, s, db');
  }

  /** Forgetting a call or turning a claim into a made executor call keeps the counts. */
  lemma CallStepKeeps(h: Hasher, s: System, step: Step)
    requires Inv(h, s) && (step.ExecuteStep? || step.CrashStep?)
    ensures var s' := Next(h, s, step); Inv(h, s') && s'.db == s.db
  {
    hide RailInv, WithinLimits;
  }

  lemma SharedStepKeeps(h: Hasher, s: System, db': Db)
    requires Inv(h, s) && RailInv(h, db') && SharedGrow(h, s.db, db')
    requires db'.authorizations == s.db.authorizations && db'.payments == s.db.payments && db'.orders == s.db.orders
    ensures Inv(h, s.(db := db')) && HistoryKept(h, s.db, db')
  {
    hide RailInv, WithinLimits, HistoryKept, SharedGrow;
    SharedEvolves(h, s.db, db');
    MovesKeepLimits(h, s.db, db');
    GrowingKeepsHistory(h, s.db, db');
    DbStepKeeps(h, s, db');
  }

  lemma EnvironmentKeeps(h: Hasher, s: System, step: Step)
    requires h.CollisionFree() && Inv(h, s) && (step.MandateStep? || step.DirectoryStep? || step.AuditStep?)
    ensures var s' := Next(h, s, step); Inv(h, s') && HistoryKept(h, s.db, s'.db)
  {
    hide RailInv, WithinLimits, Log, HistoryKept, M.Evolves, M.ProvenMandates;
    var s' := Next(h, s, step);
    HistorySame(h, s.db);
    InvAt(h, s.db, "");
    SharedSame(h, s.db, s.db);
    SharedEvolves(h, s.db, s.db);
    if s'.db != s.db {
      if step.AuditStep? {
        OtherEventKeeps(h, s.db, step.event, step.eventId);
        SharedSame(h, s.db, s'.db);
      } else {
        assert SharedGrow(h, s.db, s'.db);
        SharedWriteKeeps(h, s.db, s'.db);
      }
      SharedStepKeeps(h, s, s'.db);
    }
  }

  lemma NextKeeps(h: Hasher, s: System, step: Step)
    requires h.CollisionFree() && Inv(h, s)
    ensures Inv(h, Next(h, s, step)) && HistoryKept(h, s.db, Next(h, s, step).db)
  {
    hide RailInv, WithinLimits, HistoryKept, Claim, Persist, Reserve;
    HistorySame(h, s.db);
    match step
    case ReserveStep(input) =>
      if ListsStale(s.db, input) {
        ReserveKeeps(h, s.db, input);
        ReserveKeepsLimits(h, s.db, input);
        ReserveHistory(h, s.db, input);
        DbStepKeeps(h, s, Reserve(h, s.db, input).1);
      }
    case ClaimStep(pid, c) => ClaimStepKeeps(h, s, pid, c);
    case ExecuteStep(_, _) => CallStepKeeps(h, s, step);
    case CrashStep(_) => CallStepKeeps(h, s, step);
    case PersistStep(pid, now, e1, e2) =>
      if pid in s.calls && s.calls[pid].HasResult? {
        PersistDbKeeps(h, s, PersistInput(s.calls[pid].attemptId, s.calls[pid].result, now, e1, e2));
      }
    case ReconcileStep(attempt, key, p) =>
      if attempt.Ok? && attempt.value.1 == key { PersistDbKeeps(h, s, p.(paymentAttemptId := attempt.value.0)); }
    case MandateStep(_) => EnvironmentKeeps(h, s, step);
    case DirectoryStep(_, _) => EnvironmentKeeps(h, s, step);
    case AuditStep(_, _) => EnvironmentKeeps(h, s, step);
  }

  // ---------- Whole runs ----------

  lemma {:induction false} RunKeeps(h: Hasher, s: System, steps: seq<Step>)
    requires h.CollisionFree() && Inv(h, s)
    ensures Inv(h, Run(h, s, steps)) && HistoryKept(h, s.db, Run(h, s, steps).db)
    decreases |steps|
  {
    hide Inv, HistoryKept, Next;
    if steps == [] {
      HistoryOfInv(h, s);
    } else {
      NextKeeps(h, s, steps[0]);
      RunKeeps(h, Next(h, s, steps[0]), steps[1..]);
      HistoryKeptTransitive(h, s.db, Next(h, s, steps[0]).db, Run(h, s, steps).db);
    }
  }

  lemma HistoryOfInv(h: Hasher, s: System)
    requires Inv(h, s)
    ensures HistoryKept(h, s.db, s.db)
  {
    hide RailInv;
    HistorySame(h, s.db);
  }

  ghost function Fresh(agents: map<Id, AgentRow>, credentials: map<Id, CredentialRow>): System {
    System(Db(map[], agents, credentials, map[], map[], map[], map[], []), map[], [])
  }

  lemma FreshInv(h: Hasher, agents: map<Id, AgentRow>, credentials: map<Id, CredentialRow>)
    ensures Inv(h, Fresh(agents, credentials))
  {
    EmptyLedger(h);
    forall id ensures RowsAgree(Fresh(agents, credentials).db, id) {
      assert SubjectEvents([], id) == [];
    }
  }

  /** Exactly-once: in every interleaving the executor is called at most once for an authorization, with
      the one attempt and provider key that its payment row ever has. */
  lemma ExecutorCalledAtMostOnce(h: Hasher, agents: map<Id, AgentRow>, credentials: map<Id, CredentialRow>,
                                 steps: seq<Step>, more: seq<Step>, i: nat)
    requires h.CollisionFree()
    requires i < |Run(h, Fresh(agents, credentials), steps).executed|
    ensures var s := Run(h, Fresh(agents, credentials), steps);
      var later := Run(h, s, more);
      var call := s.executed[i];
      && (forall j :: 0 <= j < |s.executed| && j != i ==> s.executed[j].authorizationId != call.authorizationId)
      && (forall pid :: pid in s.calls && s.calls[pid].HoldsClaim? ==> s.calls[pid].authorizationId != call.authorizationId)
      && BackedBy(later.db, call.authorizationId, call.attemptId, call.key, call.amount)
  {
    FreshInv(h, agents, credentials);
    RunKeeps(h, Fresh(agents, credentials), steps);
    var s := Run(h, Fresh(agents, credentials), steps);
    RunKeeps(h, s, more);
    BackingKept(h, s, Run(h, s, more).db);
    hide RailInv, WithinLimits;
  }

  /** How many steps of a run rewrite the payment row of `id`. */
  ghost function RowWrites(h: Hasher, s: System, steps: seq<Step>, id: Id): nat
    decreases |steps|
  {
    if steps == [] then 0
    else
      var s' := Next(h, s, steps[0]);
      (if id in s.db.payments && id in s'.db.payments && s'.db.payments[id] != s.db.payments[id] then 1 else 0)
      + RowWrites(h, s', steps[1..], id)
  }

  lemma {:induction false} RowWritesClimb(h: Hasher, s: System, steps: seq<Step>, id: Id)
    requires h.CollisionFree() && Inv(h, s) && id in s.db.payments
    ensures var db := Run(h, s, steps).db;
      && id in db.payments && Climbs(s.db.payments[id], db.payments[id])
      && Rank(s.db.payments[id]) + RowWrites(h, s, steps, id) <= Rank(db.payments[id])
    decreases |steps|
  {
    hide Inv, HistoryKept, Next, Climbs, Rank;
    NothingClimbs();
    if steps != [] {
      var s' := Next(h, s, steps[0]);
      NextKeeps(h, s, steps[0]);
      RowKept(h, s.db, s'.db, id);
      RowWritesClimb(h, s', steps[1..], id);
      ClimbsOn(s.db.payments[id], s'.db.payments[id], Run(h, s, steps).db.payments[id]);
    }
  }

  lemma RowKept(h: Hasher, db: Db, db': Db, id: Id)
    requires HistoryKept(h, db, db') && id in db.payments
    ensures id in db'.payments && Climbs(db.payments[id], db'.payments[id])
    ensures db'.payments[id] != db.payments[id] ==> Rank(db.payments[id]) < Rank(db'.payments[id])
  {
    assert AttemptKept(db, db', id);
  }

  /** Over every interleaving a stored result only climbs none, open, final: its row is rewritten at most
      twice, a final one never again, and a known payment id is never replaced by a different one. Every
      stored row meets the shape check. */
  lemma ResultsClimbInEveryRun(h: Hasher, agents: map<Id, AgentRow>, credentials: map<Id, CredentialRow>,
                               steps: seq<Step>, more: seq<Step>, id: Id)
    requires h.CollisionFree() && id in Run(h, Fresh(agents, credentials), steps).db.payments
    ensures var s := Run(h, Fresh(agents, credentials), steps);
      var row, later := s.db.payments[id], Run(h, s, more).db.payments;
      && id in later && ResultShape(row) && ResultShape(later[id])
      && Rank(row) + RowWrites(h, s, more, id) <= Rank(later[id]) <= 2
      && (Rank(row) == 2 ==> later[id] == row)
      && (row.paymentId.Some? && later[id].paymentId.Some? ==> later[id].paymentId == row.paymentId)
      && later[id].paymentAttemptId == row.paymentAttemptId
      && later[id].providerIdempotencyKey == row.providerIdempotencyKey
  {
    var s := Run(h, Fresh(agents, credentials), steps);
    hide RailInv, WithinLimits, CallsBacked, AtMostOnce, HistoryKept, RowWrites, ResultShape;
    FreshInv(h, agents, credentials);
    RunKeeps(h, Fresh(agents, credentials), steps);
    RunKeeps(h, s, more);
    RowWritesClimb(h, s, more, id);
    PersistRow(h, s.db, id);
    PersistRow(h, Run(h, s, more).db, id);
  }

  /** Reconciliation never makes an attempt: what it loads is the one attempt and key the authorization will
      ever have, which every executor call for it used or will use; a result persisted with them lands in that
      authorization's row and no other, and under any other key nothing is written. */
  lemma ReconciliationUsesTheOneAttempt(h: Hasher, agents: map<Id, AgentRow>, credentials: map<Id, CredentialRow>,
                                        steps: seq<Step>, more: seq<Step>, id: Id, loaded: (Id, Id), key: Id, p: PersistInput)
    requires h.CollisionFree()
    requires var db := Run(h, Fresh(agents, credentials), steps).db;
      PendingAttempt(db.authorizations, db.payments, id) == Ok(loaded)
    ensures var s := Run(h, Fresh(agents, credentials), steps);
      var later := Run(h, s, more);
      && id in later.db.authorizations && later.db.authorizations[id].status in {PAYMENT_PENDING, AuthorizationStatus.CONSUMED, FAILED}
      && id in later.db.payments && later.db.payments[id].paymentAttemptId == loaded.0
      && later.db.payments[id].providerIdempotencyKey == loaded.1
      && (forall i :: 0 <= i < |later.executed| && later.executed[i].authorizationId == id ==>
           later.executed[i].attemptId == loaded.0 && later.executed[i].key == loaded.1)
      && var (r, db') := PersistReconciled(h, later.db, Ok(loaded), key, p);
      && (key != loaded.1 ==> r == Err(KeyMismatch) && db' == later.db)
      && (r.Ok? ==> r.value == p.result && HoldsResult(db', id, p.result))
      && (forall other :: other in later.db.payments && other != id ==>
           other in db'.payments && db'.payments[other] == later.db.payments[other])
  {
    hide RailInv, WithinLimits, AtMostOnce, HistoryKept, Persist, RowsAgree, HoldsResult;
    var s := Run(h, Fresh(agents, credentials), steps);
    FreshInv(h, agents, credentials);
    RunKeeps(h, Fresh(agents, credentials), steps);
    RunKeeps(h, s, more);
    var later := Run(h, s, more);
    BackedRow(h, s.db, later.db, id);
    InvAt(h, later.db, id);
    PaidStatus(later.db, id);
    hide Run;
    forall i | 0 <= i < |later.executed| && later.executed[i].authorizationId == id
      ensures later.executed[i].attemptId == loaded.0 && later.executed[i].key == loaded.1
    {
      assert BackedBy(later.db, id, later.executed[i].attemptId, later.executed[i].key, later.executed[i].amount);
    }
    var q := p.(paymentAttemptId := loaded.0);
    PersistWritesExactly(h, later.db, id, q);
    PersistedHolds(h, later.db, id, q);
  }

  lemma BackedRow(h: Hasher, db: Db, db': Db, id: Id)
    requires HistoryKept(h, db, db') && id in db.payments
    ensures BackedBy(db', id, db.payments[id].paymentAttemptId, db.payments[id].providerIdempotencyKey, db.payments[id].amount)
  {
    assert AttemptKept(db, db', id);
  }

  lemma PaidStatus(db: Db, id: Id)
    requires RowsAgree(db, id) && id in db.payments
    ensures id in db.authorizations
    ensures db.authorizations[id].status in {PAYMENT_PENDING, AuthorizationStatus.CONSUMED, FAILED}
  {
    hide Evidence;
  }

  lemma PersistedHolds(h: Hasher, db: Db, id: Id, p: PersistInput)
    requires h.CollisionFree() && RailInv(h, db) && OwnsAttempt(db, id, p.paymentAttemptId)
    ensures Persist(h, db, p).0.Ok? ==> HoldsResult(Persist(h, db, p).1, id, p.result)
  {
    hide RailInv, Persist, PersistFor;
    UniqueOwner(h, db, id, p);
    PersistForKeeps(h, db, id, p);
  }

  lemma ValidWhileReserved(db: Db, id: Id)
    requires RowsAgree(db, id) && id in db.authorizations
    ensures var a := db.authorizations[id];
      && a.mandateId in db.mandates && a.checkoutId in db.checkouts
      && var terms := db.mandates[a.mandateId].terms;
      && terms.validFrom <= a.reservedAt < a.expiresAt <= terms.expiresAt && a.expiresAt <= db.checkouts[a.checkoutId].expiresAt
      && terms.principalId == a.principalId && terms.agentId == a.agentId
      && a.merchantId in terms.allowedMerchantIds && a.reservedAmount.amount <= terms.maxPerPurchase.amount
  {
    hide Evidence, StatusAgrees;
  }

  /** In every run a payment attempt starts only for an authorization reserved under its own mandate, for an
      allowed merchant, within the limit per purchase, and before reservation, checkout and mandate expire;
      it is started for the reserved amount, in the reserved amount of the checkout. */
  lemma AttemptsStartInTime(h: Hasher, agents: map<Id, AgentRow>, credentials: map<Id, CredentialRow>, steps: seq<Step>,
                            c: ClaimInput)
    requires h.CollisionFree()
    requires var r := Claim(h, Run(h, Fresh(agents, credentials), steps).db, c).0; r.Ok? && r.value.Claimed?
    ensures var db := Run(h, Fresh(agents, credentials), steps).db;
      && c.authorizationId in db.authorizations
      && var a := db.authorizations[c.authorizationId];
      && a.mandateId in db.mandates && a.checkoutId in db.checkouts
      && var terms, checkout := db.mandates[a.mandateId].terms, db.checkouts[a.checkoutId];
      && c.now < a.expiresAt <= terms.expiresAt && a.expiresAt <= checkout.expiresAt
      && terms.validFrom <= a.reservedAt < a.expiresAt
      && terms.principalId == a.principalId && terms.agentId == a.agentId && a.merchantId in terms.allowedMerchantIds
      && a.reservedAmount == checkout.total && a.reservedAmount.amount <= terms.maxPerPurchase.amount
      && Claim(h, db, c).0.value.amount == a.reservedAmount
  {
    hide RailInv, HistoryKept, RowsAgree, Run;
    FreshInv(h, agents, credentials);
    RunKeeps(h, Fresh(agents, credentials), steps);
    var db := Run(h, Fresh(agents, credentials), steps).db;
    ClaimedInTime(h, db, c);
    InvAt(h, db, c.authorizationId);
    ValidWhileReserved(db, c.authorizationId);
  }

  lemma ClaimedInTime(h: Hasher, db: Db, c: ClaimInput)
    requires var r := Claim(h, db, c).0; r.Ok? && r.value.Claimed?
    ensures c.authorizationId in db.authorizations
    ensures var a := db.authorizations[c.authorizationId];
      && c.now < a.expiresAt && Claim(h, db, c).0.value.amount == a.reservedAmount
      && a.checkoutId in db.checkouts && a.reservedAmount == db.checkouts[a.checkoutId].total
  {
    hide Log, Refusal, AttemptTaken;
  }

  /** How the three tables agree about one authorization. */
  ghost predicate Agreed(db: Db, id: Id) {
    && (id in db.payments || id in db.orders ==> id in db.authorizations)
    && (id in db.authorizations ==>
         var status := db.authorizations[id].status;
         var result := if id in db.payments then db.payments[id].status else None;
         && (id !in db.payments <==> status in {RESERVED, CANCELLED})
         && (id in db.payments && result in {None, Some(TIMEOUT), Some(UNKNOWN)} <==> status == PAYMENT_PENDING)
         && (result == Some(APPROVED) <==> status == AuthorizationStatus.CONSUMED)
         && (result == Some(DECLINED) <==> status == FAILED)
         && (id in db.orders <==> status == AuthorizationStatus.CONSUMED)
         && (id in db.orders ==>
              && db.orders[id].total == db.authorizations[id].reservedAmount
              && db.payments[id].paymentId == Some(db.orders[id].paymentId)))
  }

  lemma AgreedRow(db: Db, id: Id)
    requires RowsAgree(db, id)
    ensures Agreed(db, id)
  {
    hide Evidence;
  }

  /** Status agreement in every reachable state; so the inconsistency that `claim` guards against, and a
      stored row it could not parse, are never met. */
  lemma TablesAgree(h: Hasher, agents: map<Id, AgentRow>, credentials: map<Id, CredentialRow>, steps: seq<Step>,
                    id: Id, c: ClaimInput)
    requires h.CollisionFree()
    ensures var db := Run(h, Fresh(agents, credentials), steps).db;
      Agreed(db, id) && Claim(h, db, c).0 !in {Err(Inconsistent), Err(MalformedRow)}
  {
    hide Claim, RailInv, RowsAgree, HistoryKept;
    FreshInv(h, agents, credentials);
    RunKeeps(h, Fresh(agents, credentials), steps);
    var db := Run(h, Fresh(agents, credentials), steps).db;
    InvAt(h, db, id);
    AgreedRow(db, id);
    ClaimKeeps(h, db, c);
  }

  /** Conservation over whole runs: everything reserved, in payment or confirmed under a mandate stays
      within its aggregate limit and its uses; what was cancelled is cancelled for good. */
  lemma LimitsHold(h: Hasher, agents: map<Id, AgentRow>, credentials: map<Id, CredentialRow>, steps: seq<Step>,
                   more: seq<Step>, m: Id)
    requires h.CollisionFree() && m in Run(h, Fresh(agents, credentials), steps).db.mandates
    ensures var s := Run(h, Fresh(agents, credentials), steps);
      var terms, db, later := s.db.mandates[m].terms, s.db, Run(h, s, more).db;
      && MapSums.Sum(db.authorizations, ActiveAmount(m)) <= terms.maxAggregate.amount
      && MapSums.Sum(db.authorizations, ActiveUse(m)) <= terms.maxUses
      && MapSums.Sum(db.orders, ConfirmedAmount(db.authorizations, m)) <= terms.maxAggregate.amount
      && MapSums.Sum(db.orders, ConfirmedUse(db.authorizations, m)) <= terms.maxUses
      && (forall id :: id in db.authorizations && db.authorizations[id].status == CANCELLED ==>
           id in later.authorizations && later.authorizations[id].status == CANCELLED && id !in later.payments)
  {
    hide RailInv, CallsBacked, AtMostOnce, SharedGrow;
    FreshInv(h, agents, credentials);
    var s := Run(h, Fresh(agents, credentials), steps);
    RunKeeps(h, Fresh(agents, credentials), steps);
    RunKeeps(h, s, more);
    var later := Run(h, s, more).db;
    forall id | id in s.db.authorizations && s.db.authorizations[id].status == CANCELLED
      ensures id in later.authorizations && later.authorizations[id].status == CANCELLED && id !in later.payments
    {
      assert AuthorizationKept(s.db, later, id);
      CancelledUnpaid(h, later, id);
    }
    hide HistoryKept, Run;
    OrdersWithinLimits(h, s.db, m);
  }

  lemma CancelledUnpaid(h: Hasher, db: Db, id: Id)
    requires RailInv(h, db)
    ensures id in db.authorizations && db.authorizations[id].status == CANCELLED ==> id !in db.payments
  {
    hide Evidence, LedgerInv;
    InvAt(h, db, id);
  }
}
