/** The life of an approval row: written once, settled once, and as what (travelbot/postgres-repository.ts). */
module ApprovalRows {
  import opened Common
  import opened TravelPolicy
  import opened TurnProtocol
  import opened TurnInvariant

  /** This call ends the active run of conversation `id` and says what becomes of its operation. */
  ghost predicate Ends(s: PgSystem, call: Call, id: Id) {
    && call.Complete? && PgNext(s, call).0.Completed? && call.result.operation.Some?
    && id in s.db.conversations && s.db.conversations[id].active == Some(call.completedRun)
  }

  /** The completed intent's decision is what a row is settled as. */
  predicate SettledBy(status: ApprovalStatus, intent: Intent) {
    && status != PENDING
    && (status == ApprovalStatus.CONSUMED <==> intent.confirmation.Some? && intent.confirmation.value.decision == CONFIRMED)
    && (status == ApprovalStatus.DENIED <==> intent.confirmation.Some? && intent.confirmation.value.decision == TravelPolicy.DENIED)
    && (status == ApprovalStatus.CANCELLED <==> intent.confirmation.None?)
  }

  /** What one call does to a row that is there. */
  ghost predicate RowMoves(s: PgSystem, call: Call, a: Id)
    requires a in s.db.approvals
  {
    var row, after := s.db.approvals[a], PgNext(s, call).1.db.approvals;
    if a !in after then call == Discard(row.conversationId, call.principalId) && PgNext(s, call).0 == Deleted
    else
      && after[a] == row.(status := after[a].status)
      && if row.status == PENDING && Ends(s, call, row.conversationId) then SettledBy(after[a].status, call.result.intent)
         else after[a].status == row.status
  }

  /** What one call writes anew. */
  ghost predicate RowIsNew(s: PgSystem, call: Call, a: Id)
    requires a in PgNext(s, call).1.db.approvals
  {
    var row := PgNext(s, call).1.db.approvals[a];
    && Ends(s, call, row.conversationId)
    && call.result.operation.value.pending == Some(row.approval) && row.approval.approvalId == a && row.status == PENDING
  }

  lemma CompletedApprovals(db: Pg, drawn: set<Id>, k: Id, f: Finished)
    requires PgInv(db, drawn) && k in db.runs && PgCompleteRun(db, k, f).0.Completed?
    ensures var id, after := db.runs[k].conversationId, PgCompleteRun(db, k, f).1.approvals;
      && id in db.conversations && db.conversations[id].active == Some(db.runs[k].runId)
      && (forall a :: a in db.approvals ==>
           && a in after && after[a] == db.approvals[a].(status := after[a].status)
           && if db.approvals[a].status == PENDING && db.approvals[a].conversationId == id && f.operation.Some?
              then SettledBy(after[a].status, f.intent) else after[a].status == db.approvals[a].status)
      && (forall a :: a in after && a !in db.approvals ==>
           && f.operation.Some? && f.operation.value.pending.Some? && after[a] == ApprovalRow(id, f.operation.value.pending.value, PENDING)
           && after[a].approval.approvalId == a)
  {
    hide FinishedRow, ViewOf, RunOk, ConversationOk, UniqueRuns, ApprovalsOk;
  }

  /** Every call, stale and repeated ones included: a row leaves PENDING only in a completion, with an operation,
      of its own conversation, and then as the completed intent's decision says; nothing else of it ever changes;
      it goes only with its conversation; and it is written, pending, by such a completion alone. */
  lemma RowsMove(s: PgSystem, call: Call)
    requires PgInv(s.db, s.drawn)
    ensures forall a :: a in s.db.approvals ==> RowMoves(s, call, a)
    ensures forall a :: a in PgNext(s, call).1.db.approvals && a !in s.db.approvals ==> RowIsNew(s, call, a)
  {
    hide PgInv, PgCompleteRun, PgFailRun, PgClaim, ViewOf, SettledBy;
    match call
    case Create(_, _) =>
    case Discard(_, _) =>
    case Claim(c, now, runId) => ClaimKeepsRows(s.db, c, now, runId);
    case Complete(runId, f) =>
      if k :| IsRun(s.db.runs, k, runId) && PgComplete(s.db, runId, f) == PgCompleteRun(s.db, k, f) {
        if PgCompleteRun(s.db, k, f).0.Completed? {
          CompletedApprovals(s.db, s.drawn, k, f);
          OnlyActive(s.db, s.drawn, s.db.runs[k].conversationId, runId);
        } else {
          NotCompleted(s.db, k, f);
        }
      }
    case Fail(runId, retryable) => FailKeepsRows(s.db, runId, retryable);
  }

  lemma OnlyActive(db: Pg, drawn: set<Id>, id: Id, runId: Id)
    requires PgInv(db, drawn) && id in db.conversations && db.conversations[id].active == Some(runId)
    ensures forall c :: c in db.conversations && db.conversations[c].active == Some(runId) ==> c == id
  {
    hide RowOk, ApprovalsOk;
    assert ConversationOk(db, id);
    forall c | c in db.conversations && db.conversations[c].active == Some(runId) ensures c == id {
      assert ConversationOk(db, c);
      var j :| RunOf(db.runs, id, runId, j);
      var k :| RunOf(db.runs, c, runId, k);
    }
  }

  lemma NotCompleted(db: Pg, k: Id, f: Finished)
    requires k in db.runs && !PgCompleteRun(db, k, f).0.Completed?
    ensures PgCompleteRun(db, k, f).1 == db
  {
    hide FinishedRow, ViewOf, ApprovalsAfter;
  }

  lemma ClaimKeepsRows(db: Pg, c: Command, now: Instant, runId: Id)
    ensures PgClaim(db, c, now, runId).1.approvals == db.approvals
  {
    hide ViewOf, PgPush;
  }

  lemma FailKeepsRows(db: Pg, runId: Id, retryable: bool)
    ensures PgFail(db, runId, retryable).1.approvals == db.approvals
  {
  }

  // ---------- Whole runs ----------

  ghost function After(calls: seq<Call>): PgSystem { PgRun(EMPTY, calls).system }

  lemma {:induction false} RunLast(g: History, calls: seq<Call>)
    requires calls != []
    ensures PgRun(g, calls) == StepHistory(PgRun(g, calls[..|calls| - 1]), calls[|calls| - 1])
    decreases |calls|
  {
    hide StepHistory;
    if |calls| == 1 {
      assert calls[..0] == [] && calls[1..] == [];
    } else {
      RunLast(StepHistory(g, calls[0]), calls[1..]);
      assert calls[1..][..|calls| - 2] == calls[..|calls| - 1][1..];
    }
  }

  lemma AfterInv(calls: seq<Call>)
    ensures PgInv(After(calls).db, After(calls).drawn)
  {
    hide PgInv;
    EmptyInv();
    RunKeepsHistory(EMPTY, calls);
  }

  /** Call `k` settled the row: it was pending just before, and the call ended a turn of its conversation. */
  ghost predicate SettledAt(calls: seq<Call>, k: nat, a: Id, row: ApprovalRow) {
    && k < |calls| && calls[k].Complete?
    && var before := After(calls[..k]);
    && a in before.db.approvals && before.db.approvals[a] == row.(status := PENDING)
    && Ends(before, calls[k], row.conversationId) && SettledBy(row.status, calls[k].result.intent)
  }

  /** Under any calls, a row that is no longer pending was settled by one completion of its own conversation, as
      the intent of that very completion says. */
  lemma {:induction false} SettledOnce(calls: seq<Call>, a: Id)
    requires a in After(calls).db.approvals && After(calls).db.approvals[a].status != PENDING
    ensures exists k: nat :: SettledAt(calls, k, a, After(calls).db.approvals[a])
    decreases |calls|
  {
    hide PgInv, PgNext, SettledBy;
    var init, last := calls[..|calls| - 1], calls[|calls| - 1];
    var s, row := After(init), After(calls).db.approvals[a];
    RunLast(EMPTY, calls);
    AfterInv(init);
    RowsMove(s, last);
    assert a in s.db.approvals;
    assert RowMoves(s, last, a);
    if s.db.approvals[a].status == PENDING {
      assert SettledAt(calls, |calls| - 1, a, row);
    } else {
      SettledOnce(init, a);
      var k: nat :| SettledAt(init, k, a, s.db.approvals[a]);
      assert init[..k] == calls[..k];
      assert SettledAt(calls, k, a, row);
    }
  }

  /** And it never changes again: it stays as it is for as long as its conversation does. */
  lemma {:induction false} SettledForever(calls: seq<Call>, more: seq<Call>, a: Id)
    requires a in After(calls).db.approvals && After(calls).db.approvals[a].status != PENDING
    requires forall i :: 0 <= i < |more| ==> !more[i].Discard?
    ensures a in After(calls + more).db.approvals && After(calls + more).db.approvals[a] == After(calls).db.approvals[a]
    decreases |more|
  {
    hide PgInv, PgNext, SettledBy, Ends;
    if more == [] {
      assert calls + more == calls;
    } else {
      var init := more[..|more| - 1];
      SettledForever(calls, init, a);
      assert (calls + more)[..|calls + more| - 1] == calls + init;
      RunLast(EMPTY, calls + more);
      AfterInv(calls + init);
      RowsMove(After(calls + init), more[|more| - 1]);
      assert RowMoves(After(calls + init), more[|more| - 1], a);
    }
  }
}
