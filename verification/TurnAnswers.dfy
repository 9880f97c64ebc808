/** How the transactional repository answers every call after any calls at all, on the rows it keeps
    (travelbot/postgres-repository.ts). */
module TurnAnswers {
  import opened Common
  import opened TurnProtocol
  import opened TurnInvariant
  import opened ApprovalRows

  ghost predicate SameButRuns(db: Pg, db': Pg, k: Id) {
    && db'.inputs == db.inputs && db'.approvals == db.approvals
    && db'.runs.Keys == db.runs.Keys && forall j :: j in db.runs && j != k ==> db'.runs[j] == db.runs[j]
  }

  /** A message that was seen before: what its key answers with. */
  lemma RepeatedClaim(calls: seq<Call>, c: Command, now: Instant, runId: Id)
    requires c.key in After(calls).db.inputs
    ensures var db := After(calls).db;
      var (o, db') := PgClaim(db, c, now, runId);
      && c.key in db.runs
      && var input, run := db.inputs[c.key], db.runs[c.key];
      && run.conversationId == input.conversationId && input.conversationId in db.conversations
      && var row := db.conversations[input.conversationId];
      if input.conversationId != c.conversationId || input.contentHash != c.contentHash then o == KeyConflict && db' == db
      else
        match run.status
        case COMPLETED => o == Replayed(ViewOf(db.approvals, c.conversationId, row)) && db' == db
        case RUNNING =>
          if now < run.startedAt + 30_000 then o == InProgress && db' == db
          else
            && o == Claimed(run.runId, ViewOf(db.approvals, c.conversationId, row))
            && SameButRuns(db, db', c.key) && db'.conversations == db.conversations && db'.runs[c.key] == run.(startedAt := now)
        case FAILED =>
          if !run.retryable || row.active.Some? then o == InProgress && db' == db
          else
            && o == Claimed(run.runId, ViewOf(db'.approvals, c.conversationId, db'.conversations[c.conversationId]))
            && SameButRuns(db, db', c.key)
            && db'.conversations == db.conversations[c.conversationId := row.(active := Some(run.runId))]
            && db'.runs[c.key] == RunRow(run.runId, run.conversationId, RUNNING, false, now)
  {
    hide ConversationOk, UniqueRuns, ApprovalsOk, ViewOf;
    AfterInv(calls);
    var db := After(calls).db;
    assert c.key in db.runs && RunOk(db, c.key);
  }

  /** A new message: claimed exactly when its conversation is there and idle, as a user message numbered next. */
  lemma NewClaimed(calls: seq<Call>, c: Command, now: Instant, runId: Id)
    requires c.key !in After(calls).db.inputs
    ensures var db := After(calls).db;
      var (o, db') := PgClaim(db, c, now, runId);
      if c.conversationId !in db.conversations then o == NotFound && db' == db
      else if db.conversations[c.conversationId].active.Some? then o == InProgress && db' == db
      else
        var row := db.conversations[c.conversationId];
        && o == Claimed(runId, ViewOf(db'.approvals, c.conversationId, db'.conversations[c.conversationId]))
        && db'.conversations == db.conversations[c.conversationId :=
             row.(messages := row.messages + [Message(|row.messages| + 1, USER)], active := Some(runId))]
        && db'.inputs == db.inputs[c.key := InputRow(c.conversationId, c.contentHash)]
        && db'.runs == db.runs[c.key := RunRow(runId, c.conversationId, RUNNING, false, now)]
        && db'.approvals == db.approvals
  {
    hide RunOk, UniqueRuns, ApprovalsOk, ViewOf;
    AfterInv(calls);
    var db := After(calls).db;
    if c.conversationId in db.conversations {
      assert ConversationOk(db, c.conversationId);
      MaxOfNumbered(db.conversations[c.conversationId].messages);
    }
  }

  ghost predicate ActiveRun(db: Pg, id: Id, runId: Id) {
    id in db.conversations && db.conversations[id].active == Some(runId)
  }

  /** The events of a turn: one for its text, one for each state it announces but one at least, one for the turn. */
  function TurnEvents(transitions: nat): nat { if transitions == 0 then 3 else transitions + 2 }

  /** The conversation row after a turn. */
  ghost predicate TurnStored(row: PgConversation, after: PgConversation, f: Finished) {
    && after.state == f.state && after.intent == f.intent && after.offers == f.offers && after.active == None
    && after.principalId == row.principalId && after.version == row.version + 1
    && after.columns == (if f.operation.Some? then f.operation.value.(pending := None) else row.columns)
    && after.messages == row.messages + [Message(|row.messages| + 1, ASSISTANT)]
    && after.snapshots == row.snapshots + [row.version + 1]
    && row.events <= after.events && |after.events| == |row.events| + TurnEvents(f.transitions)
  }

  predicate NewApprovalTaken(db: Pg, f: Finished) {
    f.operation.Some? && f.operation.value.pending.Some? && f.operation.value.pending.value.approvalId in db.approvals
  }

  /** The running runs of this id are now as `ended` makes them, every other is as it was. */
  ghost predicate RunsEnded(db: Pg, db': Pg, runId: Id, ended: RunRow -> RunRow) {
    && db'.runs.Keys == db.runs.Keys
    && forall k :: k in db.runs ==>
         db'.runs[k] == if db.runs[k].runId == runId && db.runs[k].status == RUNNING then ended(db.runs[k]) else db.runs[k]
  }

  function Done(): RunRow -> RunRow { (run: RunRow) => run.(status := COMPLETED) }

  function GivenUp(retryable: bool): RunRow -> RunRow { (run: RunRow) => run.(status := FAILED, retryable := retryable) }

  /** The end of a turn: only the active run of a conversation ends one. Its result, the assistant's message, the next
      version with its snapshot and the next events are stored, the conversation is idle and the run completed; and
      only an approval id that is taken stands in the way. */
  lemma CompletionExactly(calls: seq<Call>, runId: Id, f: Finished, id: Id)
    ensures var db := After(calls).db;
      var (o, db') := PgComplete(db, runId, f);
      && ((forall c :: !ActiveRun(db, c, runId)) ==> o == NotActive && db' == db)
      && (ActiveRun(db, id, runId) ==>
           if NewApprovalTaken(db, f) then o == DuplicateApproval && db' == db
           else
             && o.Completed? && id in db'.conversations && o.view == ViewOf(db'.approvals, id, db'.conversations[id])
             && TurnStored(db.conversations[id], db'.conversations[id], f)
             && (forall c :: c in db.conversations && c != id ==> c in db'.conversations && db'.conversations[c] == db.conversations[c])
             && db'.inputs == db.inputs && RunsEnded(db, db', runId, Done()))
  {
    hide PgInv, PgComplete, TurnStored, RunsEnded, ViewOf;
    AfterInv(calls);
    var s := After(calls);
    if ActiveRun(s.db, id, runId) { EndingActive(s.db, s.drawn, runId, f, id); } else { EndingNone(s.db, s.drawn, runId, f); }
  }

  lemma EndingNone(db: Pg, drawn: set<Id>, runId: Id, f: Finished)
    requires PgInv(db, drawn)
    ensures (forall c :: !ActiveRun(db, c, runId)) ==> PgComplete(db, runId, f) == (NotActive, db)
  {
    hide ApprovalsOk, ViewOf, ConversationOk, FinishedRow, ApprovalsAfter;
    if k :| IsRun(db.runs, k, runId) && PgComplete(db, runId, f) == PgCompleteRun(db, k, f) {
      var c := db.runs[k].conversationId;
      assert RunOk(db, k);
      if ActiveRun(db, c, runId) {}
    }
  }

  ghost predicate OnlyRun(db: Pg, k: Id, runId: Id) {
    forall j :: IsRun(db.runs, j, runId) ==> j == k
  }

  ghost predicate OnlyIn(db: Pg, id: Id, runId: Id) {
    forall c :: ActiveRun(db, c, runId) ==> c == id
  }

  lemma OneRunEnded(db: Pg, db': Pg, k: Id, runId: Id, ended: RunRow -> RunRow)
    requires k in db.runs && db.runs[k].runId == runId && db.runs[k].status == RUNNING && OnlyRun(db, k, runId)
    requires db'.runs == db.runs[k := ended(db.runs[k])]
    ensures RunsEnded(db, db', runId, ended)
  {
    forall j | j in db.runs && db.runs[j].runId == runId ensures j == k { assert IsRun(db.runs, j, runId); }
  }

  lemma TheCompletion(db: Pg, k: Id, runId: Id, f: Finished)
    requires IsRun(db.runs, k, runId) && OnlyRun(db, k, runId)
    ensures PgComplete(db, runId, f) == PgCompleteRun(db, k, f)
  {
    hide PgCompleteRun;
  }

  lemma TheFailure(db: Pg, k: Id, runId: Id, retryable: bool)
    requires IsRun(db.runs, k, runId) && OnlyRun(db, k, runId)
    ensures PgFail(db, runId, retryable) == (Settled, PgFailRun(db, k, retryable))
  {
    hide PgFailRun;
  }

  /** The active run of a conversation is one run, and it is running. */
  lemma TheActiveRun(db: Pg, drawn: set<Id>, runId: Id, id: Id) returns (k: Id)
    requires PgInv(db, drawn) && ActiveRun(db, id, runId)
    ensures k in db.runs && db.runs[k].runId == runId && db.runs[k].conversationId == id && db.runs[k].status == RUNNING
    ensures OnlyRun(db, k, runId) && OnlyIn(db, id, runId)
    ensures MaxSequence(db.conversations[id].messages) == |db.conversations[id].messages|
  {
    hide ApprovalsOk;
    assert ConversationOk(db, id);
    MaxOfNumbered(db.conversations[id].messages);
    OnlyActive(db, drawn, id, runId);
    k :| RunOf(db.runs, id, runId, k);
    assert RunOk(db, k);
  }

  lemma EndingActive(db: Pg, drawn: set<Id>, runId: Id, f: Finished, id: Id)
    requires PgInv(db, drawn) && ActiveRun(db, id, runId)
    ensures var (o, db') := PgComplete(db, runId, f);
      if NewApprovalTaken(db, f) then o == DuplicateApproval && db' == db
      else
        && o.Completed? && id in db'.conversations && o.view == ViewOf(db'.approvals, id, db'.conversations[id])
        && TurnStored(db.conversations[id], db'.conversations[id], f)
        && (forall c :: c in db.conversations && c != id ==> c in db'.conversations && db'.conversations[c] == db.conversations[c])
        && db'.inputs == db.inputs && RunsEnded(db, db', runId, Done())
  {
    var k := TheActiveRun(db, drawn, runId, id);
    hide PgInv, ViewOf, MaxSequence, ApprovalsAfter, FinishedRow, TurnStored, OnlyRun, RunsEnded, PgComplete, OnlyIn, NewApprovalTaken;
    TheCompletion(db, k, runId, f);
    TakenExactly(db, id, f);
    StoredRow(db.conversations[id], f);
    if !NewApprovalTaken(db, f) { OneRunEnded(db, PgComplete(db, runId, f).1, k, runId, Done()); }
  }

  lemma TakenExactly(db: Pg, id: Id, f: Finished)
    ensures ApprovalsAfter(db.approvals, id, f).None? <==> NewApprovalTaken(db, f)
  {
  }

  lemma StoredRow(row: PgConversation, f: Finished)
    requires MaxSequence(row.messages) == |row.messages|
    ensures TurnStored(row, FinishedRow(row, f), f)
  {
    hide MaxSequence, MaxEvent;
  }

  /** A turn that is given up: its conversation is idle again, its run may be retried or not, and nothing else has
      changed; a run that is not running stays as it is. */
  lemma FailureExactly(calls: seq<Call>, runId: Id, retryable: bool)
    ensures var db := After(calls).db;
      var db' := PgFail(db, runId, retryable).1;
      && db'.inputs == db.inputs && db'.approvals == db.approvals
      && db'.conversations.Keys == db.conversations.Keys && RunsEnded(db, db', runId, GivenUp(retryable))
      && (forall c :: c in db.conversations ==>
           db'.conversations[c] == if db.conversations[c].active == Some(runId) then db.conversations[c].(active := None) else db.conversations[c])
  {
    hide PgInv, PgFail, After;
    AfterInv(calls);
    var s := After(calls);
    forall c | c in s.db.conversations && s.db.conversations[c].active == Some(runId) ensures ActiveRun(s.db, c, runId) {}
    if id :| ActiveRun(s.db, id, runId) {
      FailingActive(s.db, s.drawn, runId, retryable, id);
    } else {
      FailingNone(s.db, s.drawn, runId, retryable);
      assert RunsEnded(s.db, s.db, runId, GivenUp(retryable));
    }
  }

  lemma FailingActive(db: Pg, drawn: set<Id>, runId: Id, retryable: bool, id: Id)
    requires PgInv(db, drawn) && ActiveRun(db, id, runId)
    ensures var db' := PgFail(db, runId, retryable).1;
      && db' == db.(conversations := db.conversations[id := db.conversations[id].(active := None)], runs := db'.runs)
      && RunsEnded(db, db', runId, GivenUp(retryable))
      && OnlyIn(db, id, runId)
  {
    var k := TheActiveRun(db, drawn, runId, id);
    hide PgInv, OnlyRun, RunsEnded, PgFail, OnlyIn, MaxSequence;
    TheFailure(db, k, runId, retryable);
    OneRunEnded(db, PgFail(db, runId, retryable).1, k, runId, GivenUp(retryable));
  }

  lemma FailingNone(db: Pg, drawn: set<Id>, runId: Id, retryable: bool)
    requires PgInv(db, drawn) && forall c :: !ActiveRun(db, c, runId)
    ensures PgFail(db, runId, retryable).1 == db
    ensures forall k :: k in db.runs && db.runs[k].runId == runId ==> db.runs[k].status != RUNNING
  {
    hide ApprovalsOk, ConversationOk;
    forall k | k in db.runs && db.runs[k].runId == runId ensures db.runs[k].status != RUNNING {
      assert RunOk(db, k) && !ActiveRun(db, db.runs[k].conversationId, runId);
    }
    if k :| IsRun(db.runs, k, runId) && PgFail(db, runId, retryable) == (Settled, PgFailRun(db, k, retryable)) {
      assert RunOk(db, k) && !ActiveRun(db, db.runs[k].conversationId, runId);
    }
  }

  /** A conversation is discarded by its own principal while it is idle, with every row that hangs on it. */
  lemma DiscardExactly(calls: seq<Call>, id: Id, principalId: Id)
    ensures var db := After(calls).db;
      var (o, db') := PgDiscard(db, id, principalId);
      if id !in db.conversations || db.conversations[id].principalId != principalId then o == NotFound && db' == db
      else if db.conversations[id].active.Some? then o == InProgress && db' == db
      else
        && o == Deleted && db'.conversations == db.conversations - {id}
        && (forall k :: k in db'.inputs <==> k in db.inputs && db.inputs[k].conversationId != id)
        && (forall k :: k in db'.runs <==> k in db.runs && db.runs[k].conversationId != id)
        && (forall a :: a in db'.approvals <==> a in db.approvals && db.approvals[a].conversationId != id)
        && (forall k :: k in db'.inputs ==> db'.inputs[k] == db.inputs[k]) && (forall k :: k in db'.runs ==> db'.runs[k] == db.runs[k])
        && (forall a :: a in db'.approvals ==> db'.approvals[a] == db.approvals[a])
  {
    hide After;
  }
}
