/** The transactional turn protocol against the in-memory one: the same outcome for every call, as long as
    no run outlives its lease, a turn is failed only by its holder, and pending approvals are new. */
module TurnRefinement {
  import opened Common
  import opened TurnProtocol
  import opened TurnInvariant

  // ---------- Runs of calls ----------

  ghost function MemNext(m: Mem, call: Call): (Outcome, Mem) {
    match call
    case Create(id, principalId) => if id in m.conversations then (NotFound, m) else MemCreate(m, id, principalId)
    case Discard(id, principalId) => MemDiscard(m, id, principalId)
    case Claim(c, _, runId) => MemClaim(m, c, runId)
    case Complete(runId, f) => MemComplete(m, runId, f)
    case Fail(runId, retryable) => MemFail(m, runId, retryable)
  }

  ghost function MemOutcomes(m: Mem, calls: seq<Call>): seq<Outcome>
    decreases |calls|
  {
    if calls == [] then []
    else var (o, m') := MemNext(m, calls[0]); [o] + MemOutcomes(m', calls[1..])
  }

  ghost function PgOutcomes(s: PgSystem, calls: seq<Call>): seq<Outcome>
    decreases |calls|
  {
    if calls == [] then []
    else var (o, s') := PgNext(s, calls[0]); [o] + PgOutcomes(s', calls[1..])
  }

  // ---------- When the two agree ----------

  /** The claims handed out and not yet ended by a completion or a failure. */
  function Held(held: set<Id>, call: Call, outcome: Outcome): set<Id> {
    if outcome.Claimed? then held + {outcome.runId}
    else if outcome.Completed? && call.Complete? then held - {call.completedRun}
    else if call.Fail? then held - {call.failedRun}
    else held
  }

  /** No lease expires, only a holder fails a turn, an approval is written once, run ids are new. */
  ghost predicate Disciplined(s: PgSystem, held: set<Id>, call: Call) {
    match call
    case Create(_, _) => true
    case Discard(_, _) => true
    case Claim(c, now, runId) =>
      && runId !in s.drawn
      && (c.key in s.db.runs && s.db.runs[c.key].status == RUNNING ==> now - s.db.runs[c.key].startedAt < RUN_LEASE_MS)
    case Complete(_, f) =>
      f.operation.Some? && f.operation.value.pending.Some? ==> f.operation.value.pending.value.approvalId !in s.db.approvals
    case Fail(runId, _) => runId in held
  }

  ghost predicate DisciplinedRun(s: PgSystem, held: set<Id>, calls: seq<Call>)
    decreases |calls|
  {
    calls == [] ||
    (Disciplined(s, held, calls[0])
     && var (o, s') := PgNext(s, calls[0]); DisciplinedRun(s', Held(held, calls[0], o), calls[1..]))
  }

  // ---------- The refinement relation ----------

  ghost predicate KeyAgrees(key: MemKey, input: InputRow, run: RunRow) {
    && key.conversationId == input.conversationId && key.contentHash == input.contentHash && key.runId == run.runId
    && (key.complete <==> run.status == COMPLETED)
    && (key.failed <==> run.status == FAILED && run.retryable)
  }

  /** State, version, active run, message roles and sequences of one conversation. */
  ghost predicate ViewAgrees(m: Mem, db: Pg, id: Id)
    requires id in m.conversations && id in db.conversations
  {
    && m.conversations[id].principalId == db.conversations[id].principalId
    && m.conversations[id].view == ViewOf(db.approvals, id, db.conversations[id])
  }

  ghost predicate Agrees(m: Mem, db: Pg) {
    && m.conversations.Keys == db.conversations.Keys
    && (forall id :: id in m.conversations ==> ViewAgrees(m, db, id))
    && m.keys.Keys == db.inputs.Keys == db.runs.Keys
    && (forall k :: k in m.keys ==> KeyAgrees(m.keys[k], db.inputs[k], db.runs[k]))
  }

  /** With no lease handed out twice, the claims held are exactly the active runs. */
  ghost predicate HeldActive(db: Pg, held: set<Id>) {
    && (forall r :: r in held ==> exists id :: id in db.conversations && db.conversations[id].active == Some(r))
    && (forall id :: id in db.conversations && db.conversations[id].active.Some? ==> db.conversations[id].active.value in held)
  }

  ghost predicate Refines(m: Mem, s: PgSystem, held: set<Id>) {
    PgInv(s.db, s.drawn) && Agrees(m, s.db) && HeldActive(s.db, held)
  }

  // ---------- Frames ----------

  lemma ActiveUnique(db: Pg, drawn: set<Id>, a: Id, b: Id, r: Id)
    requires PgInv(db, drawn) && a in db.conversations && b in db.conversations
    requires db.conversations[a].active == Some(r) == db.conversations[b].active
    ensures a == b
  {
    hide PgInv, RowOk, UniqueRuns, ApprovalsOk;
    InvAt(db, drawn, a);
    InvAt(db, drawn, b);
    assert ConversationOk(db, a) && ConversationOk(db, b);
    var j :| RunOf(db.runs, a, r, j);
    var k :| RunOf(db.runs, b, r, k);
    if j != k { OtherRun(db.runs, drawn, j, k); }
  }

  /** Two tables that changed at one conversation, in the same way. */
  lemma OneAgrees(m: Mem, db: Pg, m': Mem, db': Pg, id: Id)
    requires Agrees(m, db)
    requires forall c :: c != id ==> (c in m'.conversations <==> c in m.conversations) && (c in db'.conversations <==> c in db.conversations)
    requires forall c :: c != id && c in m.conversations ==>
      && m'.conversations[c] == m.conversations[c] && db'.conversations[c] == db.conversations[c]
      && PendingOf(db'.approvals, c) == PendingOf(db.approvals, c)
    requires id in m'.conversations <==> id in db'.conversations
    requires id in m'.conversations ==> ViewAgrees(m', db', id)
    requires m'.keys.Keys == db'.inputs.Keys == db'.runs.Keys
    requires forall k :: k in m'.keys ==> KeyAgrees(m'.keys[k], db'.inputs[k], db'.runs[k])
    ensures Agrees(m', db')
  {
    hide KeyAgrees, PendingOf;
    forall c | c in m'.conversations ensures c in db'.conversations && ViewAgrees(m', db', c) {
      if c != id { assert ViewAgrees(m, db, c); }
    }
    assert forall c :: c in m'.conversations <==> c in db'.conversations;
    assert m'.conversations.Keys == db'.conversations.Keys;
  }

  lemma AgreeAt(m: Mem, db: Pg, id: Id, k: Id)
    requires Agrees(m, db)
    ensures id in m.conversations <==> id in db.conversations
    ensures id in m.conversations ==> ViewAgrees(m, db, id)
    ensures m.keys.Keys == db.inputs.Keys == db.runs.Keys
    ensures k in m.keys ==> KeyAgrees(m.keys[k], db.inputs[k], db.runs[k])
    ensures forall j :: j in m.keys ==> KeyAgrees(m.keys[j], db.inputs[j], db.runs[j])
  {
  }

  lemma NoPending(db: Pg, id: Id)
    requires ApprovalsOk(db) && id !in db.conversations
    ensures PendingOf(db.approvals, id) == None
  {
  }

  // ---------- Each call ----------

  lemma CreateRefines(m: Mem, db: Pg, drawn: set<Id>, id: Id, principalId: Id)
    requires PgInv(db, drawn) && Agrees(m, db) && id !in db.conversations
    ensures id !in m.conversations && Agrees(MemCreate(m, id, principalId).1, PgCreate(db, id, principalId).1)
  {
    hide PgInv, Agrees, KeyAgrees, ApprovalsOk;
    InvAt(db, drawn, id);
    AgreeAt(m, db, id, "");
    NoPending(db, id);
    var m', db' := MemCreate(m, id, principalId).1, PgCreate(db, id, principalId).1;
    forall c | c != id && c in m.conversations ensures c in db.conversations { AgreeAt(m, db, c, ""); }
    OneAgrees(m, db, m', db', id);
  }

  lemma DiscardRefines(m: Mem, db: Pg, drawn: set<Id>, id: Id, principalId: Id)
    requires PgInv(db, drawn) && Agrees(m, db)
    ensures MemDiscard(m, id, principalId).0 == PgDiscard(db, id, principalId).0
    ensures Agrees(MemDiscard(m, id, principalId).1, PgDiscard(db, id, principalId).1)
  {
    hide PgInv, Agrees, ApprovalsOk, PendingOf, RunOk;
    InvAt(db, drawn, id);
    AgreeAt(m, db, id, "");
    if PgDiscard(db, id, principalId).0 == Deleted {
      var m', db' := MemDiscard(m, id, principalId).1, PgDiscard(db, id, principalId).1;
      RunOwners(db);
      forall c | c != id ensures PendingOf(db'.approvals, c) == PendingOf(db.approvals, c) { DiscardedPending(db, db', id, c); }
      forall c | c != id && c in m.conversations ensures c in db.conversations { AgreeAt(m, db, c, ""); }
      forall k ensures k in m'.keys <==> k in db'.inputs {}
      assert m'.keys.Keys == db'.inputs.Keys == db'.runs.Keys;
      OneAgrees(m, db, m', db', id);
    }
  }

  lemma DiscardedPending(db: Pg, db': Pg, id: Id, c: Id)
    requires ApprovalsOk(db) && c != id
    requires db'.approvals == map a | a in db.approvals && db.approvals[a].conversationId != id :: db.approvals[a]
    ensures PendingOf(db'.approvals, c) == PendingOf(db.approvals, c)
  {
    forall a ensures IsPending(db'.approvals, c, a) <==> IsPending(db.approvals, c, a) {}
    SamePending(db, db'.approvals, c);
  }

  lemma SamePending(db: Pg, approvals: map<Id, ApprovalRow>, c: Id)
    requires ApprovalsOk(db)
    requires forall a :: IsPending(approvals, c, a) <==> IsPending(db.approvals, c, a)
    requires forall a :: IsPending(approvals, c, a) ==> approvals[a] == db.approvals[a]
    ensures PendingOf(approvals, c) == PendingOf(db.approvals, c)
  {
  }

  lemma ClaimRefines(m: Mem, s: PgSystem, held: set<Id>, c: Command, now: Instant, runId: Id)
    requires PgInv(s.db, s.drawn) && Agrees(m, s.db) && Disciplined(s, held, Claim(c, now, runId))
    ensures MemClaim(m, c, runId).0 == PgClaim(s.db, c, now, runId).0
    ensures Agrees(MemClaim(m, c, runId).1, PgClaim(s.db, c, now, runId).1)
  {
    hide PgInv, Agrees, ApprovalsOk, PendingOf, UniqueRuns, ConversationOk, RunOk;
    var db, id := s.db, c.conversationId;
    InvAt(db, s.drawn, id);
    AgreeAt(m, db, id, c.key);
    if id in db.conversations { NumberedAt(db, id); }
    var (o, m') := MemClaim(m, c, runId);
    var (o', db') := PgClaim(db, c, now, runId);
    if c.key in db.inputs { RunningIsActive(db, s.drawn, c.key); }
    assert o == o';
    if o.Claimed? {
      forall d | d != id && d in m.conversations ensures d in db.conversations { AgreeAt(m, db, d, ""); }
      OneAgrees(m, db, m', db', id);
    } else {
      assert m' == m && db' == db;
    }
  }

  lemma RunningIsActive(db: Pg, drawn: set<Id>, k: Id)
    requires PgInv(db, drawn) && k in db.inputs
    ensures k in db.runs && db.runs[k].conversationId == db.inputs[k].conversationId && db.runs[k].conversationId in db.conversations
    ensures db.runs[k].status == RUNNING <==> db.conversations[db.runs[k].conversationId].active == Some(db.runs[k].runId)
  {
    assert RunOk(db, k);
  }

  lemma NumberedAt(db: Pg, id: Id)
    requires id in db.conversations && ConversationOk(db, id)
    ensures MaxSequence(db.conversations[id].messages) == |db.conversations[id].messages|
  {
    MaxOfNumbered(db.conversations[id].messages);
  }

  /** The run that a call names, as both sides find it. */
  lemma ActiveRun(m: Mem, db: Pg, drawn: set<Id>, runId: Id, id: Id) returns (k: Id)
    requires PgInv(db, drawn) && Agrees(m, db) && ActiveIn(m, id, runId)
    ensures id in db.conversations && db.conversations[id].active == Some(runId)
    ensures RunOf(db.runs, id, runId, k) && db.runs[k].status == RUNNING && k in m.keys
    ensures forall j :: IsRun(db.runs, j, runId) ==> j == k
    ensures forall j :: j in m.keys ==> (m.keys[j].runId == runId <==> j == k)
    ensures forall c :: ActiveIn(m, c, runId) <==> c == id
  {
    hide PgInv, Agrees, ApprovalsOk, PendingOf, UniqueRuns, RowOk;
    InvAt(db, drawn, id);
    AgreeAt(m, db, id, "");
    assert ConversationOk(db, id);
    k :| RunOf(db.runs, id, runId, k);
    assert RunOk(db, k);
    forall j | IsRun(db.runs, j, runId) ensures j == k {
      if j != k { OtherRun(db.runs, drawn, j, k); }
    }
    forall j | j in m.keys ensures m.keys[j].runId == runId <==> j == k {
      if j != k { OtherRun(db.runs, drawn, j, k); }
    }
    forall c ensures ActiveIn(m, c, runId) <==> c == id {
      AgreeAt(m, db, c, "");
      if ActiveIn(m, c, runId) { ActiveUnique(db, drawn, c, id, runId); }
    }
  }

  lemma CompletedViews(m: Mem, db: Pg, id: Id, f: Finished, approvals: map<Id, ApprovalRow>)
    requires id in m.conversations && id in db.conversations && ViewAgrees(m, db, id)
    requires MaxSequence(db.conversations[id].messages) == |db.conversations[id].messages|
    requires f.operation.Some? ==> PendingOf(approvals, id) == f.operation.value.pending
    requires f.operation.None? ==> approvals == db.approvals
    ensures var v := m.conversations[id].view;
      View(FinishedBody(v.body, f), v.version + 1, None, Push(v, ASSISTANT))
      == ViewOf(approvals, id, FinishedRow(db.conversations[id], f))
    ensures FinishedRow(db.conversations[id], f).principalId == db.conversations[id].principalId
  {
    hide PendingOf, MaxSequence, MaxEvent, EventNumbers;
  }

  lemma CompletedKeys(m: Mem, db: Pg, db': Pg, m': Mem, k: Id)
    requires Agrees(m, db) && k in db.runs
    requires forall j :: j in m.keys ==> (m.keys[j].runId == db.runs[k].runId <==> j == k)
    requires k in m.keys ==> db.runs[k].status == RUNNING
    requires m'.keys == map j | j in m.keys :: if m.keys[j].runId == db.runs[k].runId then m.keys[j].(complete := true) else m.keys[j]
    requires db'.inputs == db.inputs && db'.runs == db.runs[k := db.runs[k].(status := COMPLETED)]
    ensures m'.keys.Keys == db'.inputs.Keys == db'.runs.Keys
    ensures forall j :: j in m'.keys ==> KeyAgrees(m'.keys[j], db'.inputs[j], db'.runs[j])
  {
    hide ViewAgrees;
  }

  lemma CompleteRunRefines(m: Mem, db: Pg, drawn: set<Id>, f: Finished, id: Id, k: Id)
    requires PgInv(db, drawn) && Agrees(m, db) && id in m.conversations
    requires k in db.runs && db.runs[k].conversationId == id && db.runs[k].status == RUNNING
    requires forall j :: j in m.keys ==> (m.keys[j].runId == db.runs[k].runId <==> j == k)
    requires db.conversations.Keys >= {id} && db.conversations[id].active == Some(db.runs[k].runId)
    requires ApprovalsAfter(db.approvals, id, f).Some?
    ensures MemCompleteIn(m, id, db.runs[k].runId, f).0 == PgCompleteRun(db, k, f).0
    ensures Agrees(MemCompleteIn(m, id, db.runs[k].runId, f).1, PgCompleteRun(db, k, f).1)
  {
    hide PgInv, Agrees, KeyAgrees, ApprovalsOk, PendingOf, UniqueRuns, ConversationOk, RunOk;
    hide ApprovalsAfter, FinishedRow, FinishedBody, MaxSequence, Push;
    InvAt(db, drawn, id);
    AgreeAt(m, db, id, k);
    NumberedAt(db, id);
    ApprovalsStayOk(db, id, f);
    CompletedViews(m, db, id, f, ApprovalsAfter(db.approvals, id, f).value);
    var m', db' := MemCompleteIn(m, id, db.runs[k].runId, f).1, PgCompleteRun(db, k, f).1;
    CompletedKeys(m, db, db', m', k);
    forall d | d != id && d in m.conversations ensures d in db.conversations { AgreeAt(m, db, d, ""); }
    OneAgrees(m, db, m', db', id);
  }

  lemma CompleteInRefines(m: Mem, db: Pg, drawn: set<Id>, runId: Id, f: Finished, id: Id)
    requires PgInv(db, drawn) && Agrees(m, db) && ActiveIn(m, id, runId)
    requires f.operation.Some? && f.operation.value.pending.Some? ==> f.operation.value.pending.value.approvalId !in db.approvals
    ensures MemComplete(m, runId, f) == MemCompleteIn(m, id, runId, f)
    ensures MemComplete(m, runId, f).0 == PgComplete(db, runId, f).0 && PgComplete(db, runId, f).0.Completed?
    ensures Agrees(MemComplete(m, runId, f).1, PgComplete(db, runId, f).1)
    ensures var db' := PgComplete(db, runId, f).1;
      db'.conversations.Keys == db.conversations.Keys && db'.conversations[id].active == None
      && forall c :: c in db.conversations && c != id ==> db'.conversations[c] == db.conversations[c]
  {
    hide PgInv, Agrees, MemCompleteIn, ApprovalsAfter;
    var k := ActiveRun(m, db, drawn, runId, id);
    AgreeAt(m, db, id, k);
    NewApprovalFits(db, id, f);
    assert IsRun(db.runs, k, runId) && PgComplete(db, runId, f) == PgCompleteRun(db, k, f);
    CompleteRunRefines(m, db, drawn, f, id, k);
  }

  lemma NewApprovalFits(db: Pg, id: Id, f: Finished)
    requires f.operation.Some? && f.operation.value.pending.Some? ==> f.operation.value.pending.value.approvalId !in db.approvals
    ensures ApprovalsAfter(db.approvals, id, f).Some?
  {
  }

  lemma NotActiveAnywhere(m: Mem, db: Pg, drawn: set<Id>, runId: Id, f: Finished)
    requires PgInv(db, drawn) && Agrees(m, db) && forall id :: !ActiveIn(m, id, runId)
    ensures PgComplete(db, runId, f) == (NotActive, db)
  {
    hide PgInv, Agrees;
    if k :| IsRun(db.runs, k, runId) && PgComplete(db, runId, f) == PgCompleteRun(db, k, f) {
      AgreeAt(m, db, db.runs[k].conversationId, k);
      assert !ActiveIn(m, db.runs[k].conversationId, runId);
    }
  }

  lemma FailRunRefines(m: Mem, db: Pg, drawn: set<Id>, retryable: bool, id: Id, k: Id)
    requires PgInv(db, drawn) && Agrees(m, db) && id in m.conversations
    requires k in db.runs && db.runs[k].conversationId == id && db.runs[k].status == RUNNING
    requires forall j :: j in m.keys ==> (m.keys[j].runId == db.runs[k].runId <==> j == k)
    requires db.conversations.Keys >= {id} && db.conversations[id].active == Some(db.runs[k].runId)
    ensures Agrees(MemFailIn(m, Some(id), db.runs[k].runId, retryable), PgFailRun(db, k, retryable))
  {
    hide PgInv, Agrees, ApprovalsOk, PendingOf, UniqueRuns, ConversationOk, RunOk, ActiveIn;
    AgreeAt(m, db, id, k);
    var m', db' := MemFailIn(m, Some(id), db.runs[k].runId, retryable), PgFailRun(db, k, retryable);
    forall d | d != id && d in m.conversations ensures d in db.conversations { AgreeAt(m, db, d, ""); }
    assert ViewAgrees(m', db', id);
    OneAgrees(m, db, m', db', id);
  }

  lemma FailRefines(m: Mem, db: Pg, drawn: set<Id>, runId: Id, retryable: bool, id: Id)
    requires PgInv(db, drawn) && Agrees(m, db) && ActiveIn(m, id, runId)
    ensures Agrees(MemFail(m, runId, retryable).1, PgFail(db, runId, retryable).1)
    ensures var db' := PgFail(db, runId, retryable).1;
      db'.conversations.Keys == db.conversations.Keys && db'.conversations[id].active == None
      && forall c :: c in db.conversations && c != id ==> db'.conversations[c] == db.conversations[c]
  {
    hide PgInv, Agrees, MemFailIn;
    var k := ActiveRun(m, db, drawn, runId, id);
    AgreeAt(m, db, id, k);
    assert IsRun(db.runs, k, runId) && PgFail(db, runId, retryable) == (Settled, PgFailRun(db, k, retryable));
    assert MemFail(m, runId, retryable) == (Settled, MemFailIn(m, Some(id), runId, retryable));
    FailRunRefines(m, db, drawn, retryable, id, k);
  }

  // ---------- Any disciplined run ----------

  lemma EndedHeld(db: Pg, db': Pg, drawn: set<Id>, held: set<Id>, id: Id, runId: Id)
    requires PgInv(db, drawn) && HeldActive(db, held) && id in db.conversations && db.conversations[id].active == Some(runId)
    requires db'.conversations.Keys == db.conversations.Keys && db'.conversations[id].active == None
    requires forall c :: c in db.conversations && c != id ==> db'.conversations[c] == db.conversations[c]
    ensures HeldActive(db', held - {runId})
  {
    hide PgInv;
    forall c | c in db.conversations && c != id ensures db.conversations[c].active != Some(runId) {
      if db.conversations[c].active == Some(runId) { ActiveUnique(db, drawn, c, id, runId); }
    }
    forall r | r in held - {runId} ensures exists c :: c in db'.conversations && db'.conversations[c].active == Some(r) {
      var c :| c in db.conversations && db.conversations[c].active == Some(r);
      assert db'.conversations[c].active == Some(r);
    }
  }

  lemma ClaimedHeld(s: PgSystem, held: set<Id>, c: Command, now: Instant, runId: Id)
    requires PgInv(s.db, s.drawn) && HeldActive(s.db, held) && Disciplined(s, held, Claim(c, now, runId))
    ensures var (o, db') := PgClaim(s.db, c, now, runId);
      HeldActive(db', if o.Claimed? then held + {o.runId} else held)
  {
    hide PgInv, ViewOf, PgPush;
    var (o, db') := PgClaim(s.db, c, now, runId);
    if c.key in s.db.inputs { RunningIsActive(s.db, s.drawn, c.key); }
    if o.Claimed? {
      assert db'.conversations.Keys == s.db.conversations.Keys && db'.conversations[c.conversationId].active == Some(o.runId);
      forall r | r in held ensures exists d :: d in db'.conversations && db'.conversations[d].active == Some(r) {
        var d :| d in s.db.conversations && s.db.conversations[d].active == Some(r);
        assert db'.conversations[d].active == Some(r);
      }
    }
  }

  lemma DirectoryHeld(db: Pg, db': Pg, held: set<Id>, id: Id)
    requires HeldActive(db, held)
    requires forall c :: c != id ==> (c in db'.conversations <==> c in db.conversations)
    requires forall c :: c != id && c in db.conversations ==> db'.conversations[c] == db.conversations[c]
    requires id in db.conversations ==> db.conversations[id].active == None
    requires id in db'.conversations ==> db'.conversations[id].active == None
    ensures HeldActive(db', held)
  {
    forall r | r in held ensures exists c :: c in db'.conversations && db'.conversations[c].active == Some(r) {
      var c :| c in db.conversations && db.conversations[c].active == Some(r);
      assert db'.conversations[c].active == Some(r);
    }
  }

  lemma HeldIsActive(m: Mem, db: Pg, held: set<Id>, runId: Id)
    requires Agrees(m, db) && HeldActive(db, held) && runId in held
    ensures exists id :: ActiveIn(m, id, runId)
  {
    var id :| id in db.conversations && db.conversations[id].active == Some(runId);
    AgreeAt(m, db, id, "");
    assert ActiveIn(m, id, runId);
  }

  lemma EndCallRefines(m: Mem, s: PgSystem, held: set<Id>, call: Call)
    requires Refines(m, s, held) && Disciplined(s, held, call) && (call.Complete? || call.Fail?)
    ensures var (o, m') := MemNext(m, call);
      var (o', s') := PgNext(s, call);
      o == o' && Agrees(m', s'.db) && HeldActive(s'.db, Held(held, call, o))
  {
    hide PgInv, Agrees, HeldActive, MemFail, PgFail, MemComplete, PgComplete;
    match call
    case Complete(runId, f) =>
      if id :| ActiveIn(m, id, runId) {
        AgreeAt(m, s.db, id, "");
        CompleteInRefines(m, s.db, s.drawn, runId, f, id);
        EndedHeld(s.db, PgComplete(s.db, runId, f).1, s.drawn, held, id, runId);
      } else {
        NotActiveAnywhere(m, s.db, s.drawn, runId, f);
        NotActiveInMemory(m, runId, f);
      }
    case Fail(runId, retryable) =>
      HeldIsActive(m, s.db, held, runId);
      var id :| ActiveIn(m, id, runId);
      AgreeAt(m, s.db, id, "");
      FailRefines(m, s.db, s.drawn, runId, retryable, id);
      EndedHeld(s.db, PgFail(s.db, runId, retryable).1, s.drawn, held, id, runId);
      FailOutcomes(m, s.db, runId, retryable);
  }

  lemma NotActiveInMemory(m: Mem, runId: Id, f: Finished)
    requires forall id :: !ActiveIn(m, id, runId)
    ensures MemComplete(m, runId, f) == (NotActive, m)
  {
  }

  lemma FailOutcomes(m: Mem, db: Pg, runId: Id, retryable: bool)
    ensures MemFail(m, runId, retryable).0 == PgFail(db, runId, retryable).0 == Settled
  {
  }

  lemma StepRefines(m: Mem, s: PgSystem, held: set<Id>, call: Call)
    requires Refines(m, s, held) && Disciplined(s, held, call)
    ensures MemNext(m, call).0 == PgNext(s, call).0
    ensures Refines(MemNext(m, call).1, PgNext(s, call).1, Held(held, call, PgNext(s, call).0))
  {
    hide PgInv, Agrees, HeldActive, MemClaim, PgClaim, MemDiscard, PgDiscard, MemFail, PgFail, MemComplete, PgComplete;
    PgKeeps(s, call);
    match call
    case Create(id, principalId) =>
      AgreeAt(m, s.db, id, "");
      if id !in s.db.conversations {
        CreateRefines(m, s.db, s.drawn, id, principalId);
        DirectoryHeld(s.db, PgCreate(s.db, id, principalId).1, held, id);
      }
    case Discard(id, principalId) =>
      DiscardRefines(m, s.db, s.drawn, id, principalId);
      DiscardHeld(s.db, held, id, principalId);
    case Claim(c, now, runId) =>
      ClaimRefines(m, s, held, c, now, runId);
      ClaimedHeld(s, held, c, now, runId);
    case Complete(_, _) => EndCallRefines(m, s, held, call);
    case Fail(_, _) => EndCallRefines(m, s, held, call);
  }

  lemma DiscardHeld(db: Pg, held: set<Id>, id: Id, principalId: Id)
    requires HeldActive(db, held)
    ensures HeldActive(PgDiscard(db, id, principalId).1, held)
    ensures !PgDiscard(db, id, principalId).0.Claimed? && !PgDiscard(db, id, principalId).0.Completed?
  {
    hide HeldActive;
    if PgDiscard(db, id, principalId).0 == Deleted { DirectoryHeld(db, PgDiscard(db, id, principalId).1, held, id); }
  }

  const EMPTY_MEM := Mem(map[], map[])
  const EMPTY_PG := PgSystem(Pg(map[], map[], map[], map[]), {})

  lemma {:induction false} RunRefines(m: Mem, s: PgSystem, held: set<Id>, calls: seq<Call>)
    requires Refines(m, s, held) && DisciplinedRun(s, held, calls)
    ensures MemOutcomes(m, calls) == PgOutcomes(s, calls)
    decreases |calls|
  {
    hide Refines, MemNext, PgNext, Disciplined;
    if calls != [] {
      StepRefines(m, s, held, calls[0]);
      RunRefines(MemNext(m, calls[0]).1, PgNext(s, calls[0]).1, Held(held, calls[0], PgNext(s, calls[0]).0), calls[1..]);
    }
  }

  /** Every run of calls in which no run reaches its lease, each failure comes from the holder of a claim and
      approvals are new gets the same answers from both repositories: claimed, replayed, in conflict, in
      progress, completed, and the same view of the conversation with each of them. */
  lemma PostgresRefinesInMemory(calls: seq<Call>)
    requires DisciplinedRun(EMPTY_PG, {}, calls)
    ensures MemOutcomes(EMPTY_MEM, calls) == PgOutcomes(EMPTY_PG, calls)
  {
    EmptyInv();
    RunRefines(EMPTY_MEM, EMPTY_PG, {}, calls);
  }

  // ---------- Where the two differ ----------

  /** For a run being processed, a repeated message gets the same answer exactly while the lease lasts; then
      PostgreSQL hands the run out again and memory does not. */
  lemma LeaseExactly(m: Mem, s: PgSystem, held: set<Id>, c: Command, now: Instant, runId: Id)
    requires Refines(m, s, held) && c.key in s.db.runs && s.db.runs[c.key].status == RUNNING
    requires s.db.inputs[c.key] == InputRow(c.conversationId, c.contentHash)
    ensures MemClaim(m, c, runId).0 == PgClaim(s.db, c, now, runId).0 <==> now - s.db.runs[c.key].startedAt < RUN_LEASE_MS
    ensures now - s.db.runs[c.key].startedAt >= RUN_LEASE_MS ==> PgClaim(s.db, c, now, runId).0.Claimed?
  {
    hide PgInv, Agrees, HeldActive;
    AgreeAt(m, s.db, c.conversationId, c.key);
    RunningIsActive(s.db, s.drawn, c.key);
  }

  /** Completing an active run gets the same answer exactly when the approval it leaves pending, if any, was
      never written before; memory keeps it, PostgreSQL inserts it a second time and fails. */
  lemma ApprovalsExactly(m: Mem, s: PgSystem, held: set<Id>, runId: Id, f: Finished, id: Id)
    requires Refines(m, s, held) && ActiveIn(m, id, runId)
    ensures MemComplete(m, runId, f).0 == PgComplete(s.db, runId, f).0 <==>
      (f.operation.Some? && f.operation.value.pending.Some? ==> f.operation.value.pending.value.approvalId !in s.db.approvals)
    ensures MemComplete(m, runId, f).0.Completed?
  {
    hide PgInv, Agrees, HeldActive;
    if f.operation.Some? && f.operation.value.pending.Some? && f.operation.value.pending.value.approvalId in s.db.approvals {
      var k := ActiveRun(m, s.db, s.drawn, runId, id);
      assert IsRun(s.db.runs, k, runId) && PgComplete(s.db, runId, f) == PgCompleteRun(s.db, k, f);
      assert PgComplete(s.db, runId, f).0 == DuplicateApproval;
    } else {
      CompleteInRefines(m, s.db, s.drawn, runId, f, id);
    }
  }

  /** So over PostgreSQL no turn can leave a conversation with the pending approval it already had; exactly
      which messages make the service ask for that is `ServiceOverPostgres.WaitingTurnFailsExactly`. */
  lemma WaitingCannotContinue(m: Mem, s: PgSystem, held: set<Id>, runId: Id, f: Finished, id: Id)
    requires Refines(m, s, held) && ActiveIn(m, id, runId)
    requires f.operation == Some(m.conversations[id].view.body.operation) && f.operation.value.pending.Some?
    ensures PgComplete(s.db, runId, f).0 == DuplicateApproval && PgComplete(s.db, runId, f).1 == s.db
  {
    hide PgInv, Agrees, HeldActive;
    InvAt(s.db, s.drawn, id);
    AgreeAt(m, s.db, id, "");
    var k := ActiveRun(m, s.db, s.drawn, runId, id);
    assert PendingOf(s.db.approvals, id) == f.operation.value.pending;
    var a :| IsPending(s.db.approvals, id, a) && s.db.approvals[a].approval == f.operation.value.pending.value;
    assert IsRun(s.db.runs, k, runId) && PgComplete(s.db, runId, f) == PgCompleteRun(s.db, k, f);
  }
}
