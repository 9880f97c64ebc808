/** What the transactional turn protocol keeps under any calls at all: stale holders, lease hand-outs,
    repeated completions and failures included. */
module TurnInvariant {
  import opened Common
  import opened TurnProtocol

  ghost predicate Numbered(messages: seq<Message>) {
    forall i :: 0 <= i < |messages| ==> messages[i].sequence == i + 1
  }

  ghost predicate CountsFrom(s: seq<nat>, from: nat) {
    forall i :: 0 <= i < |s| ==> s[i] == from + i
  }

  ghost function CompletedRuns(runs: map<Id, RunRow>, id: Id): set<Id> {
    set k | k in runs && runs[k].conversationId == id && runs[k].status == COMPLETED
  }

  /** The running run of a conversation is its active run, and the other way round. */
  ghost predicate RunOk(db: Pg, k: Id)
    requires k in db.runs
  {
    var run := db.runs[k];
    && k in db.inputs && db.inputs[k].conversationId == run.conversationId && run.conversationId in db.conversations
    && (run.status == RUNNING <==> db.conversations[run.conversationId].active == Some(run.runId))
  }

  ghost predicate RunOf(runs: map<Id, RunRow>, id: Id, runId: Id, k: Id) {
    k in runs && runs[k].conversationId == id && runs[k].runId == runId
  }

  ghost predicate RowOk(row: PgConversation) {
    && Numbered(row.messages)
    && CountsFrom(row.events, 1)
    && CountsFrom(row.snapshots, 0) && |row.snapshots| == row.version + 1
  }

  ghost predicate ConversationOk(db: Pg, id: Id)
    requires id in db.conversations
  {
    var row := db.conversations[id];
    && RowOk(row)
    && row.version == |CompletedRuns(db.runs, id)|
    && (row.active.Some? ==> exists k :: RunOf(db.runs, id, row.active.value, k))
  }

  ghost predicate ApprovalsOk(db: Pg) {
    && (forall a :: a in db.approvals ==>
         db.approvals[a].conversationId in db.conversations && db.approvals[a].approval.approvalId == a)
    && (forall id, a, b :: IsPending(db.approvals, id, a) && IsPending(db.approvals, id, b) ==> a == b)
  }

  ghost predicate UniqueRuns(runs: map<Id, RunRow>, drawn: set<Id>) {
    && (forall k :: k in runs ==> runs[k].runId in drawn)
    && (forall j, k :: j in runs && k in runs && j != k ==> runs[j].runId != runs[k].runId)
  }

  ghost predicate PgInv(db: Pg, drawn: set<Id>) {
    && db.inputs.Keys == db.runs.Keys
    && UniqueRuns(db.runs, drawn)
    && (forall k :: k in db.runs ==> RunOk(db, k))
    && (forall id :: id in db.conversations ==> ConversationOk(db, id))
    && ApprovalsOk(db)
  }

  lemma {:induction false} MaxOfNumbered(messages: seq<Message>)
    requires Numbered(messages)
    ensures MaxSequence(messages) == |messages|
  {
    if messages != [] { MaxOfNumbered(messages[..|messages| - 1]); }
  }

  lemma {:induction false} MaxOfEvents(events: seq<nat>)
    requires CountsFrom(events, 1)
    ensures MaxEvent(events) == |events|
  {
    if events != [] { MaxOfEvents(events[..|events| - 1]); }
  }

  // ---------- Frames ----------

  /** Conversations and runs other than those of `id` are untouched. */
  ghost predicate OthersSame(db: Pg, db': Pg, id: Id) {
    && (forall c :: c != id ==> (c in db.conversations <==> c in db'.conversations))
    && (forall c :: c != id && c in db.conversations ==> db'.conversations[c] == db.conversations[c])
    && (forall k :: (k in db.runs && db.runs[k].conversationId != id) <==> (k in db'.runs && db'.runs[k].conversationId != id))
    && (forall k :: k in db.runs && db.runs[k].conversationId != id ==> db'.runs[k] == db.runs[k] && (k in db.inputs ==> k in db'.inputs && db'.inputs[k] == db.inputs[k]))
  }

  lemma OthersStay(db: Pg, db': Pg, id: Id, drawn: set<Id>)
    requires PgInv(db, drawn) && OthersSame(db, db', id)
    ensures forall c :: c in db'.conversations && c != id ==> ConversationOk(db', c)
    ensures forall k :: k in db'.runs && db'.runs[k].conversationId != id ==> RunOk(db', k)
  {
    forall c | c in db'.conversations && c != id ensures ConversationOk(db', c) {
      assert ConversationOk(db, c);
      assert CompletedRuns(db'.runs, c) == CompletedRuns(db.runs, c);
      var row := db.conversations[c];
      if row.active.Some? {
        var k :| RunOf(db.runs, c, row.active.value, k);
        assert RunOf(db'.runs, c, row.active.value, k);
      }
    }
    forall k | k in db'.runs && db'.runs[k].conversationId != id ensures RunOk(db', k) {
      assert RunOk(db, k);
    }
  }

  lemma InvAt(db: Pg, drawn: set<Id>, id: Id)
    requires PgInv(db, drawn)
    ensures db.inputs.Keys == db.runs.Keys && UniqueRuns(db.runs, drawn) && ApprovalsOk(db)
    ensures forall k :: k in db.runs ==> RunOk(db, k)
    ensures id in db.conversations ==> ConversationOk(db, id)
  {
  }

  /** A call that touches one conversation is judged by that conversation alone. */
  lemma OneConversation(db: Pg, db': Pg, id: Id, drawn: set<Id>, drawn': set<Id>)
    requires PgInv(db, drawn) && OthersSame(db, db', id)
    requires db'.inputs.Keys == db'.runs.Keys && UniqueRuns(db'.runs, drawn') && ApprovalsOk(db')
    requires forall k :: k in db'.runs && db'.runs[k].conversationId == id ==> RunOk(db', k)
    requires id in db'.conversations ==> ConversationOk(db', id)
    ensures PgInv(db', drawn')
  {
    hide UniqueRuns, ApprovalsOk, RunOk, ConversationOk, OthersSame;
    OthersStay(db, db', id, drawn);
  }

  lemma SameOwners(db: Pg, db': Pg)
    requires ApprovalsOk(db) && db'.approvals == db.approvals && db.conversations.Keys <= db'.conversations.Keys
    ensures ApprovalsOk(db')
  {
  }

  lemma NewRunUnique(runs: map<Id, RunRow>, drawn: set<Id>, k: Id, run: RunRow)
    requires UniqueRuns(runs, drawn) && run.runId !in drawn
    ensures UniqueRuns(runs[k := run], drawn + {run.runId})
  {
  }

  lemma SameRunUnique(runs: map<Id, RunRow>, drawn: set<Id>, k: Id, run: RunRow)
    requires UniqueRuns(runs, drawn) && k in runs && run.runId == runs[k].runId
    ensures UniqueRuns(runs[k := run], drawn)
  {
  }

  // ---------- Each call ----------

  lemma CreateKeeps(db: Pg, drawn: set<Id>, id: Id, principalId: Id)
    requires PgInv(db, drawn) && id !in db.conversations
    ensures PgInv(PgCreate(db, id, principalId).1, drawn)
  {
    hide PgInv, UniqueRuns, ApprovalsOk, RunOk, ConversationOk, OthersSame;
    var db' := PgCreate(db, id, principalId).1;
    InvAt(db, drawn, id);
    SameOwners(db, db');
    CreatedAlone(db, drawn, id, principalId);
    OneConversation(db, db', id, drawn, drawn);
  }

  lemma CreatedAlone(db: Pg, drawn: set<Id>, id: Id, principalId: Id)
    requires PgInv(db, drawn) && id !in db.conversations
    ensures var db' := PgCreate(db, id, principalId).1;
      && OthersSame(db, db', id) && ConversationOk(db', id) && forall k :: k in db.runs ==> db.runs[k].conversationId != id
  {
    hide UniqueRuns, ApprovalsOk;
    var db' := PgCreate(db, id, principalId).1;
    forall k | k in db.runs ensures db.runs[k].conversationId != id { assert RunOk(db, k); }
    assert CompletedRuns(db'.runs, id) == {};
  }

  lemma DiscardedApprovals(db: Pg, id: Id, db': Pg)
    requires ApprovalsOk(db) && db'.conversations == db.conversations - {id}
    requires db'.approvals == map a | a in db.approvals && db.approvals[a].conversationId != id :: db.approvals[a]
    ensures ApprovalsOk(db')
  {
    forall c, a | IsPending(db'.approvals, c, a) ensures IsPending(db.approvals, c, a) {}
  }

  lemma DiscardKeeps(db: Pg, drawn: set<Id>, id: Id, principalId: Id)
    requires PgInv(db, drawn)
    ensures PgInv(PgDiscard(db, id, principalId).1, drawn)
  {
    hide PgInv, ApprovalsOk, ConversationOk, RunOk, OthersSame;
    var db' := PgDiscard(db, id, principalId).1;
    if PgDiscard(db, id, principalId).0 == Deleted {
      InvAt(db, drawn, id);
      RunOwners(db);
      DiscardedApprovals(db, id, db');
      DiscardTouchesOne(db, id, principalId);
      OneConversation(db, db', id, drawn, drawn);
    }
  }

  lemma RunOwners(db: Pg)
    requires forall k :: k in db.runs ==> RunOk(db, k)
    ensures forall k :: k in db.runs ==> k in db.inputs && db.inputs[k].conversationId == db.runs[k].conversationId
  {
    forall k | k in db.runs ensures k in db.inputs && db.inputs[k].conversationId == db.runs[k].conversationId {
      assert RunOk(db, k);
    }
  }

  lemma DiscardTouchesOne(db: Pg, id: Id, principalId: Id)
    requires PgDiscard(db, id, principalId).0 == Deleted
    requires forall k :: k in db.runs ==> k in db.inputs && db.inputs[k].conversationId == db.runs[k].conversationId
    ensures OthersSame(db, PgDiscard(db, id, principalId).1, id)
  {
  }

  lemma PushOk(row: PgConversation, role: Role)
    requires RowOk(row)
    ensures RowOk(row.(messages := PgPush(row, role)))
    ensures |PgPush(row, role)| == |row.messages| + 1
  {
    MaxOfNumbered(row.messages);
  }

  ghost predicate IsNewClaim(db: Pg, drawn: set<Id>, c: Command, runId: Id) {
    && runId !in drawn && c.key !in db.inputs && c.conversationId in db.conversations
    && db.conversations[c.conversationId].active.None?
  }

  lemma NewClaimRunsOk(db: Pg, drawn: set<Id>, c: Command, now: Instant, runId: Id)
    requires PgInv(db, drawn) && IsNewClaim(db, drawn, c, runId)
    ensures var db' := PgClaim(db, c, now, runId).1;
      forall k :: k in db'.runs && db'.runs[k].conversationId == c.conversationId ==> RunOk(db', k)
  {
    hide PgInv, UniqueRuns, ApprovalsOk, ConversationOk, PgPush;
    var db' := PgClaim(db, c, now, runId).1;
    InvAt(db, drawn, c.conversationId);
    forall k | k in db'.runs && db'.runs[k].conversationId == c.conversationId ensures RunOk(db', k) {
      if k != c.key { assert RunOk(db, k); NewRunDiffers(db.runs, drawn, k, runId); }
    }
  }

  lemma NewClaimConversationOk(db: Pg, drawn: set<Id>, c: Command, now: Instant, runId: Id)
    requires PgInv(db, drawn) && IsNewClaim(db, drawn, c, runId)
    ensures ConversationOk(PgClaim(db, c, now, runId).1, c.conversationId)
  {
    hide PgInv, UniqueRuns, ApprovalsOk, RowOk, RunOk, PgPush;
    var id, db' := c.conversationId, PgClaim(db, c, now, runId).1;
    InvAt(db, drawn, id);
    assert ConversationOk(db, id);
    PushOk(db.conversations[id], USER);
    RowFrame(db.conversations[id].(messages := PgPush(db.conversations[id], USER)), db'.conversations[id]);
    assert CompletedRuns(db'.runs, id) == CompletedRuns(db.runs, id);
    assert RunOf(db'.runs, id, runId, c.key);
  }

  lemma NewClaimTouchesOne(db: Pg, drawn: set<Id>, c: Command, now: Instant, runId: Id)
    requires db.inputs.Keys == db.runs.Keys && IsNewClaim(db, drawn, c, runId)
    ensures var db' := PgClaim(db, c, now, runId).1;
      && OthersSame(db, db', c.conversationId) && db'.inputs.Keys == db'.runs.Keys && db'.approvals == db.approvals
      && db'.conversations.Keys == db.conversations.Keys
      && db'.runs == db.runs[c.key := RunRow(runId, c.conversationId, RUNNING, false, now)]
  {
    hide PgPush;
  }

  lemma NewClaimKeeps(db: Pg, drawn: set<Id>, c: Command, now: Instant, runId: Id)
    requires PgInv(db, drawn) && IsNewClaim(db, drawn, c, runId)
    ensures PgInv(PgClaim(db, c, now, runId).1, drawn + {runId})
  {
    hide PgInv, UniqueRuns, ApprovalsOk, RunOk, ConversationOk, OthersSame, PgClaim;
    var db' := PgClaim(db, c, now, runId).1;
    InvAt(db, drawn, c.conversationId);
    NewClaimTouchesOne(db, drawn, c, now, runId);
    NewRunUnique(db.runs, drawn, c.key, db'.runs[c.key]);
    SameOwners(db, db');
    NewClaimRunsOk(db, drawn, c, now, runId);
    NewClaimConversationOk(db, drawn, c, now, runId);
    OneConversation(db, db', c.conversationId, drawn, drawn + {runId});
  }

  lemma NewRunDiffers(runs: map<Id, RunRow>, drawn: set<Id>, k: Id, runId: Id)
    requires UniqueRuns(runs, drawn) && k in runs && runId !in drawn
    ensures runs[k].runId != runId
  {
  }

  lemma RowFrame(row: PgConversation, row': PgConversation)
    requires RowOk(row) && row'.messages == row.messages && row'.events == row.events
    requires row'.snapshots == row.snapshots && row'.version == row.version
    ensures RowOk(row')
  {
  }

  /** One run of a conversation rewritten, and its active run set to match. */
  ghost predicate Rewrites(db: Pg, db': Pg, drawn: set<Id>, k: Id, run: RunRow) {
    && k in db.runs && run.runId == db.runs[k].runId && run.conversationId == db.runs[k].conversationId
    && run.conversationId in db.conversations
    && db'.inputs == db.inputs && db'.runs == db.runs[k := run]
    && run.conversationId in db'.conversations
    && db'.conversations == db.conversations[run.conversationId := db'.conversations[run.conversationId]]
    && var before, after := db.conversations[run.conversationId].active, db'.conversations[run.conversationId].active;
    && (run.status == RUNNING ==> before in {None, Some(run.runId)})
    && after == (if run.status == RUNNING then Some(run.runId) else if before == Some(run.runId) then None else before)
  }

  lemma RewrittenRunsOk(db: Pg, db': Pg, drawn: set<Id>, k: Id, run: RunRow)
    requires PgInv(db, drawn) && Rewrites(db, db', drawn, k, run)
    ensures forall j :: j in db'.runs && db'.runs[j].conversationId == run.conversationId ==> RunOk(db', j)
  {
    hide PgInv, UniqueRuns, ApprovalsOk, ConversationOk;
    InvAt(db, drawn, run.conversationId);
    forall j | j in db'.runs && db'.runs[j].conversationId == run.conversationId ensures RunOk(db', j) {
      assert RunOk(db, j) && RunOk(db, k);
      if j != k { OtherRun(db.runs, drawn, j, k); }
    }
  }

  lemma RewrittenConversationOk(db: Pg, db': Pg, drawn: set<Id>, k: Id, run: RunRow)
    requires PgInv(db, drawn) && Rewrites(db, db', drawn, k, run)
    requires RowOk(db'.conversations[run.conversationId])
    requires db'.conversations[run.conversationId].version == |CompletedRuns(db'.runs, run.conversationId)|
    ensures ConversationOk(db', run.conversationId)
  {
    hide PgInv, UniqueRuns, ApprovalsOk, RowOk, RunOk, CompletedRuns;
    var id := run.conversationId;
    InvAt(db, drawn, id);
    var active := db'.conversations[id].active;
    if active.Some? {
      if run.status == RUNNING {
        assert RunOf(db'.runs, id, active.value, k);
      } else {
        var j :| RunOf(db.runs, id, active.value, j);
        assert RunOf(db'.runs, id, active.value, j);
      }
    }
  }

  lemma RewriteKeeps(db: Pg, db': Pg, drawn: set<Id>, k: Id, run: RunRow)
    requires PgInv(db, drawn) && Rewrites(db, db', drawn, k, run) && ApprovalsOk(db')
    requires RowOk(db'.conversations[run.conversationId])
    requires db'.conversations[run.conversationId].version == |CompletedRuns(db'.runs, run.conversationId)|
    ensures PgInv(db', drawn)
  {
    hide PgInv, UniqueRuns, ApprovalsOk, ConversationOk, RowOk, RunOk, CompletedRuns, OthersSame, Rewrites;
    InvAt(db, drawn, run.conversationId);
    RewriteTouchesOne(db, db', drawn, k, run);
    RewrittenRunsOk(db, db', drawn, k, run);
    RewrittenConversationOk(db, db', drawn, k, run);
    OneConversation(db, db', run.conversationId, drawn, drawn);
  }

  lemma RewriteTouchesOne(db: Pg, db': Pg, drawn: set<Id>, k: Id, run: RunRow)
    requires db.inputs.Keys == db.runs.Keys && UniqueRuns(db.runs, drawn) && Rewrites(db, db', drawn, k, run)
    ensures OthersSame(db, db', run.conversationId)
    ensures db'.inputs.Keys == db'.runs.Keys && UniqueRuns(db'.runs, drawn)
  {
    RewriteUnique(db, db', drawn, k, run);
    hide UniqueRuns;
    forall c | c != run.conversationId
      ensures c in db.conversations <==> c in db'.conversations
      ensures c in db.conversations ==> db'.conversations[c] == db.conversations[c]
    {
    }
    forall j
      ensures (j in db.runs && db.runs[j].conversationId != run.conversationId)
         <==> (j in db'.runs && db'.runs[j].conversationId != run.conversationId)
      ensures j in db.runs && db.runs[j].conversationId != run.conversationId ==> db'.runs[j] == db.runs[j]
    {
    }
  }

  lemma RewriteUnique(db: Pg, db': Pg, drawn: set<Id>, k: Id, run: RunRow)
    requires UniqueRuns(db.runs, drawn) && Rewrites(db, db', drawn, k, run)
    ensures UniqueRuns(db'.runs, drawn)
  {
    hide UniqueRuns;
    SameRunUnique(db.runs, drawn, k, run);
  }

  /** Rewriting a run that was not completed and is not now, with nothing else but the active run. */
  lemma RewriteRunKeeps(db: Pg, db': Pg, drawn: set<Id>, k: Id, run: RunRow)
    requires PgInv(db, drawn) && Rewrites(db, db', drawn, k, run)
    requires db.runs[k].status != COMPLETED && run.status != COMPLETED
    requires db'.approvals == db.approvals
    requires db'.conversations[run.conversationId]
          == db.conversations[run.conversationId].(active := db'.conversations[run.conversationId].active)
    ensures PgInv(db', drawn)
  {
    hide PgInv, UniqueRuns, ApprovalsOk, RowOk, RunOk;
    var id := run.conversationId;
    InvAt(db, drawn, id);
    assert ConversationOk(db, id);
    SameOwners(db, db');
    RowFrame(db.conversations[id], db'.conversations[id]);
    assert CompletedRuns(db'.runs, id) == CompletedRuns(db.runs, id);
    RewriteKeeps(db, db', drawn, k, run);
  }

  lemma OtherRun(runs: map<Id, RunRow>, drawn: set<Id>, j: Id, k: Id)
    requires UniqueRuns(runs, drawn) && j in runs && k in runs && j != k
    ensures runs[j].runId != runs[k].runId
  {
  }

  lemma ReclaimKeeps(db: Pg, drawn: set<Id>, c: Command, now: Instant, runId: Id)
    requires PgInv(db, drawn) && c.key in db.inputs
    ensures PgInv(PgClaim(db, c, now, runId).1, drawn) && PgClaim(db, c, now, runId).0 != Corrupt
  {
    hide PgInv, UniqueRuns, ApprovalsOk, ConversationOk;
    InvAt(db, drawn, c.conversationId);
    assert RunOk(db, c.key);
    var db', run := PgClaim(db, c, now, runId).1, db.runs[c.key];
    if db' != db {
      RewriteRunKeeps(db, db', drawn, c.key, db'.runs[c.key]);
    }
  }

  lemma ApprovalsStayOk(db: Pg, id: Id, f: Finished)
    requires ApprovalsOk(db) && id in db.conversations && ApprovalsAfter(db.approvals, id, f).Some?
    ensures ApprovalsOk(db.(approvals := ApprovalsAfter(db.approvals, id, f).value))
    ensures var after := ApprovalsAfter(db.approvals, id, f).value;
      && (f.operation.Some? ==> PendingOf(after, id) == f.operation.value.pending)
      && (f.operation.None? ==> after == db.approvals)
      && (forall c :: c != id ==> PendingOf(after, c) == PendingOf(db.approvals, c))
  {
    var after := ApprovalsAfter(db.approvals, id, f).value;
    if f.operation.Some? {
      forall c, a | c != id ensures IsPending(after, c, a) <==> IsPending(db.approvals, c, a) && after[a] == db.approvals[a] {}
      forall a ensures IsPending(after, id, a) <==>
        f.operation.value.pending.Some? && a == f.operation.value.pending.value.approvalId {}
      forall c | c != id ensures PendingOf(after, c) == PendingOf(db.approvals, c) {
        if a :| IsPending(db.approvals, c, a) { assert IsPending(after, c, a); }
        if a :| IsPending(after, c, a) { assert IsPending(db.approvals, c, a); }
      }
      if f.operation.value.pending.Some? { assert IsPending(after, id, f.operation.value.pending.value.approvalId); }
    }
  }

  lemma FinishedRowOk(row: PgConversation, f: Finished)
    requires RowOk(row)
    ensures RowOk(FinishedRow(row, f))
    ensures FinishedRow(row, f).version == row.version + 1 && FinishedRow(row, f).active == None
  {
    MaxOfNumbered(row.messages);
    MaxOfEvents(row.events);
  }

  lemma CompleteRunKeeps(db: Pg, drawn: set<Id>, k: Id, f: Finished)
    requires PgInv(db, drawn) && k in db.runs
    ensures PgInv(PgCompleteRun(db, k, f).1, drawn)
  {
    hide PgInv, UniqueRuns, ApprovalsOk, RowOk, RunOk, ApprovalsAfter, FinishedRow;
    var (outcome, db') := PgCompleteRun(db, k, f);
    if outcome.Completed? {
      var id := db.runs[k].conversationId;
      InvAt(db, drawn, id);
      assert ConversationOk(db, id);
      ApprovalsStayOk(db, id, f);
      SameOwners(db.(approvals := db'.approvals), db');
      FinishedRowOk(db.conversations[id], f);
      assert CompletedRuns(db'.runs, id) == CompletedRuns(db.runs, id) + {k};
      RewriteKeeps(db, db', drawn, k, db'.runs[k]);
    }
  }

  lemma FailRunKeeps(db: Pg, drawn: set<Id>, k: Id, retryable: bool)
    requires PgInv(db, drawn) && k in db.runs
    ensures PgInv(PgFailRun(db, k, retryable), drawn)
  {
    hide PgInv, UniqueRuns, ApprovalsOk, ConversationOk;
    var run := db.runs[k];
    InvAt(db, drawn, run.conversationId);
    assert RunOk(db, k);
    if run.status == RUNNING {
      RewriteRunKeeps(db, PgFailRun(db, k, retryable), drawn, k, run.(status := FAILED, retryable := retryable));
    } else {
      assert PgFailRun(db, k, retryable) == db;
    }
  }

  // ---------- Whole runs of calls ----------

  datatype PgSystem = PgSystem(db: Pg, drawn: set<Id>)

  /** One call. Ids drawn for conversations and runs are new; a call that could not draw them is no step. */
  ghost function PgNext(s: PgSystem, call: Call): (Outcome, PgSystem) {
    match call
    case Create(id, principalId) =>
      if id in s.db.conversations then (NotFound, s)
      else var (o, db) := PgCreate(s.db, id, principalId); (o, s.(db := db))
    case Discard(id, principalId) => var (o, db) := PgDiscard(s.db, id, principalId); (o, s.(db := db))
    case Claim(c, now, runId) =>
      if runId in s.drawn then (NotFound, s)
      else
        var (o, db) := PgClaim(s.db, c, now, runId);
        (o, PgSystem(db, s.drawn + {runId}))
    case Complete(runId, f) => var (o, db) := PgComplete(s.db, runId, f); (o, s.(db := db))
    case Fail(runId, retryable) => var (o, db) := PgFail(s.db, runId, retryable); (o, s.(db := db))
  }

  lemma MoreDrawn(db: Pg, drawn: set<Id>, more: set<Id>)
    requires PgInv(db, drawn) && drawn <= more
    ensures PgInv(db, more)
  {
  }

  lemma PgKeeps(s: PgSystem, call: Call)
    requires PgInv(s.db, s.drawn)
    ensures PgInv(PgNext(s, call).1.db, PgNext(s, call).1.drawn) && PgNext(s, call).0 != Corrupt
  {
    hide PgInv, PgDiscard, PgCompleteRun, PgFailRun, PgClaim;
    match call
    case Create(id, principalId) => if id !in s.db.conversations { CreateKeeps(s.db, s.drawn, id, principalId); }
    case Discard(id, principalId) => DiscardKeeps(s.db, s.drawn, id, principalId);
    case Claim(c, now, runId) => if runId !in s.drawn { ClaimKeeps(s.db, s.drawn, c, now, runId); }
    case Complete(runId, f) =>
      if k :| IsRun(s.db.runs, k, runId) && PgComplete(s.db, runId, f) == PgCompleteRun(s.db, k, f) {
        CompleteRunKeeps(s.db, s.drawn, k, f);
      }
    case Fail(runId, retryable) =>
      if k :| IsRun(s.db.runs, k, runId) && PgFail(s.db, runId, retryable) == (Settled, PgFailRun(s.db, k, retryable)) {
        FailRunKeeps(s.db, s.drawn, k, retryable);
      }
  }

  lemma ClaimKeeps(db: Pg, drawn: set<Id>, c: Command, now: Instant, runId: Id)
    requires PgInv(db, drawn) && runId !in drawn
    ensures PgInv(PgClaim(db, c, now, runId).1, drawn + {runId}) && PgClaim(db, c, now, runId).0 != Corrupt
  {
    hide PgInv;
    if c.key in db.inputs {
      ReclaimKeeps(db, drawn, c, now, runId);
      MoreDrawn(PgClaim(db, c, now, runId).1, drawn, drawn + {runId});
    } else if c.conversationId in db.conversations && db.conversations[c.conversationId].active.None? {
      NewClaimKeeps(db, drawn, c, now, runId);
    } else {
      MoreDrawn(db, drawn, drawn + {runId});
    }
  }

  ghost predicate AllCompleted(runs: map<Id, RunRow>, runId: Id) {
    forall k :: IsRun(runs, k, runId) ==> runs[k].status == COMPLETED
  }

  lemma CompletedStays(s: PgSystem, call: Call, r: Id)
    requires PgInv(s.db, s.drawn) && r in s.drawn && AllCompleted(s.db.runs, r)
    ensures AllCompleted(PgNext(s, call).1.db.runs, r) && r in PgNext(s, call).1.drawn
  {
    hide PgInv, FinishedRow, ApprovalsAfter, PgPush;
    match call
    case Create(_, _) =>
    case Discard(_, _) =>
    case Claim(_, _, _) =>
    case Complete(runId, f) =>
      if k :| IsRun(s.db.runs, k, runId) && PgComplete(s.db, runId, f) == PgCompleteRun(s.db, k, f) {}
    case Fail(runId, retryable) =>
      if k :| IsRun(s.db.runs, k, runId) && PgFail(s.db, runId, retryable) == (Settled, PgFailRun(s.db, k, retryable)) {}
  }

  /** Only a running run can be completed, and it is completed then. */
  lemma CompletionOf(s: PgSystem, call: Call)
    requires PgInv(s.db, s.drawn) && PgNext(s, call).0.Completed?
    ensures call.Complete? && call.completedRun in s.drawn
    ensures !AllCompleted(s.db.runs, call.completedRun)
    ensures AllCompleted(PgNext(s, call).1.db.runs, call.completedRun)
  {
    hide FinishedRow, ApprovalsAfter, RunOk, ConversationOk, ApprovalsOk;
    match call
    case Claim(_, _, _) =>
    case Complete(runId, f) =>
      if k :| IsRun(s.db.runs, k, runId) && PgComplete(s.db, runId, f) == PgCompleteRun(s.db, k, f) {
        forall j | IsRun(PgNext(s, call).1.db.runs, j, runId) ensures j == k {}
      }
    case _ =>
  }

  datatype History = History(system: PgSystem, completed: seq<Id>)

  ghost predicate HistoryInv(g: History) {
    && PgInv(g.system.db, g.system.drawn)
    && NoDuplicates(g.completed)
    && forall r :: r in g.completed ==> r in g.system.drawn && AllCompleted(g.system.db.runs, r)
  }

  ghost function PgRun(g: History, calls: seq<Call>): History
    decreases |calls|
  {
    if calls == [] then g else PgRun(StepHistory(g, calls[0]), calls[1..])
  }

  /** The run a successful completion completed is noted. */
  ghost function StepHistory(g: History, call: Call): History {
    var (outcome, system) := PgNext(g.system, call);
    History(system, if outcome.Completed? && call.Complete? then g.completed + [call.completedRun] else g.completed)
  }

  lemma StepKeepsHistory(g: History, call: Call)
    requires HistoryInv(g)
    ensures HistoryInv(StepHistory(g, call))
  {
    hide PgInv, PgNext, AllCompleted;
    PgKeeps(g.system, call);
    var g' := StepHistory(g, call);
    forall r | r in g.completed ensures r in g'.system.drawn && AllCompleted(g'.system.db.runs, r) {
      CompletedStays(g.system, call, r);
    }
    if PgNext(g.system, call).0.Completed? {
      CompletionOf(g.system, call);
      CompletedStaysDrawn(g.system, call);
    }
  }

  lemma CompletedStaysDrawn(s: PgSystem, call: Call)
    requires PgInv(s.db, s.drawn)
    ensures s.drawn <= PgNext(s, call).1.drawn
  {
    hide PgInv;
  }

  const EMPTY := History(PgSystem(Pg(map[], map[], map[], map[]), {}), [])

  lemma EmptyInv()
    ensures HistoryInv(EMPTY)
  {
  }

  lemma {:induction false} RunKeepsHistory(g: History, calls: seq<Call>)
    requires HistoryInv(g)
    ensures HistoryInv(PgRun(g, calls))
    decreases |calls|
  {
    hide HistoryInv, StepHistory;
    if calls != [] {
      StepKeepsHistory(g, calls[0]);
      RunKeepsHistory(StepHistory(g, calls[0]), calls[1..]);
    }
  }

  /** Under any calls in any order, run leases handed out twice included: no run is ever completed twice;
      the running run of a conversation is its active run; message and event numbers have no gaps; there is
      one snapshot per version and as many versions as completed turns; and one approval at most is pending. */
  lemma ProtocolInvariant(calls: seq<Call>, id: Id)
    ensures var g := PgRun(EMPTY, calls);
      var db := g.system.db;
      && NoDuplicates(g.completed)
      && (forall a, b :: IsPending(db.approvals, id, a) && IsPending(db.approvals, id, b) ==> a == b)
      && (id in db.conversations ==>
           var row := db.conversations[id];
           && (forall k :: k in db.runs && db.runs[k].conversationId == id ==>
                (db.runs[k].status == RUNNING <==> row.active == Some(db.runs[k].runId)))
           && (row.active.Some? ==> exists k :: RunOf(db.runs, id, row.active.value, k))
           && (forall i :: 0 <= i < |row.messages| ==> row.messages[i].sequence == i + 1)
           && (forall i :: 0 <= i < |row.events| ==> row.events[i] == i + 1)
           && (forall i :: 0 <= i < |row.snapshots| ==> row.snapshots[i] == i) && |row.snapshots| == row.version + 1
           && row.version == |CompletedRuns(db.runs, id)|)
  {
    EmptyInv();
    RunKeepsHistory(EMPTY, calls);
    hide PgRun;
    var db := PgRun(EMPTY, calls).system.db;
    InvAt(db, PgRun(EMPTY, calls).system.drawn, id);
    forall k | k in db.runs && db.runs[k].conversationId == id && id in db.conversations
      ensures db.runs[k].status == RUNNING <==> db.conversations[id].active == Some(db.runs[k].runId)
    {
      assert RunOk(db, k);
    }
  }
}
