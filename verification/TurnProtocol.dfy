/** The turn protocol of a conversation, twice: the in-memory repository and the transactional one with
    run leases (travelbot/in-memory-repository.ts, travelbot/postgres-repository.ts). */
module TurnProtocol {
  import opened Common
  import opened TravelPolicy
  import T = TravelBot

  datatype Role = USER | ASSISTANT

  datatype Message = Message(sequence: nat, role: Role)

  /** What a caller sees of a conversation. */
  datatype View = View(body: T.Conversation, version: nat, active: Option<Id>, messages: seq<Message>)

  datatype Command = Command(conversationId: Id, key: Id, contentHash: Digest)

  /** A finished turn: what `completeTurn` writes. `transitions` counts the state events it announces. */
  datatype Finished = Finished(
    state: T.State, intent: Intent, offers: seq<T.Offer>, operation: Option<T.Operation>, transitions: nat)

  datatype Outcome =
    | Claimed(runId: Id, view: View) | Replayed(view: View) | KeyConflict | InProgress | NotFound
    | Completed(view: View) | NotActive | DuplicateApproval | Settled | Deleted | Created | Corrupt

  // ---------- In memory ----------

  datatype MemConversation = MemConversation(principalId: Id, view: View)

  datatype MemKey = MemKey(conversationId: Id, runId: Id, contentHash: Digest, complete: bool, failed: bool)

  datatype Mem = Mem(conversations: map<Id, MemConversation>, keys: map<Id, MemKey>)

  const NEW_BODY := T.CREATED_BODY

  function MemCreate(m: Mem, id: Id, principalId: Id): (Outcome, Mem) {
    (Created, m.(conversations := m.conversations[id := MemConversation(principalId, View(NEW_BODY, 0, None, []))]))
  }

  function MemDiscard(m: Mem, id: Id, principalId: Id): (Outcome, Mem) {
    if id !in m.conversations || m.conversations[id].principalId != principalId then (NotFound, m)
    else if m.conversations[id].view.active.Some? then (InProgress, m)
    else (Deleted, Mem(m.conversations - {id}, map k | k in m.keys && m.keys[k].conversationId != id :: m.keys[k]))
  }

  function Push(v: View, role: Role): seq<Message> {
    v.messages + [Message(|v.messages| + 1, role)]
  }

  function MemClaim(m: Mem, c: Command, runId: Id): (Outcome, Mem) {
    if c.key in m.keys then
      var replay := m.keys[c.key];
      if replay.conversationId != c.conversationId || replay.contentHash != c.contentHash then (KeyConflict, m)
      else if c.conversationId !in m.conversations then (Corrupt, m)
      else
        var conversation := m.conversations[c.conversationId];
        if replay.complete then (Replayed(conversation.view), m)
        else if replay.failed && conversation.view.active.None? then
          var view := conversation.view.(active := Some(replay.runId));
          (Claimed(replay.runId, view),
           Mem(m.conversations[c.conversationId := conversation.(view := view)], m.keys[c.key := replay.(failed := false)]))
        else (InProgress, m)
    else if c.conversationId !in m.conversations then (NotFound, m)
    else if m.conversations[c.conversationId].view.active.Some? then (InProgress, m)
    else
      var conversation := m.conversations[c.conversationId];
      var view := conversation.view.(messages := Push(conversation.view, USER), active := Some(runId));
      (Claimed(runId, view),
       Mem(m.conversations[c.conversationId := conversation.(view := view)],
           m.keys[c.key := MemKey(c.conversationId, runId, c.contentHash, false, false)]))
  }

  /** The conversation whose active run this is. */
  ghost predicate ActiveIn(m: Mem, id: Id, runId: Id) {
    id in m.conversations && m.conversations[id].view.active == Some(runId)
  }

  function FinishedBody(before: T.Conversation, f: Finished): T.Conversation {
    T.Conversation(f.state, f.intent, f.offers, if f.operation.Some? then f.operation.value else before.operation)
  }

  ghost function MemComplete(m: Mem, runId: Id, f: Finished): (Outcome, Mem) {
    if id :| ActiveIn(m, id, runId) then MemCompleteIn(m, id, runId, f) else (NotActive, m)
  }

  function MemCompleteIn(m: Mem, id: Id, runId: Id, f: Finished): (Outcome, Mem)
    requires id in m.conversations
  {
    var conversation := m.conversations[id];
    var view := View(FinishedBody(conversation.view.body, f), conversation.view.version + 1, None, Push(conversation.view, ASSISTANT));
    (Completed(view),
     Mem(m.conversations[id := conversation.(view := view)],
         map k | k in m.keys :: if m.keys[k].runId == runId then m.keys[k].(complete := true) else m.keys[k]))
  }

  ghost function MemFail(m: Mem, runId: Id, retryable: bool): (Outcome, Mem) {
    if id :| ActiveIn(m, id, runId) then (Settled, MemFailIn(m, Some(id), runId, retryable))
    else (Settled, MemFailIn(m, None, runId, retryable))
  }

  /** The active run of conversation `id`, if one was found, is given up; its key notes the failure. */
  function MemFailIn(m: Mem, id: Option<Id>, runId: Id, retryable: bool): Mem
    requires id.Some? ==> id.value in m.conversations
  {
    Mem(if id.Some? then m.conversations[id.value :=
          m.conversations[id.value].(view := m.conversations[id.value].view.(active := None))] else m.conversations,
        map k | k in m.keys :: if m.keys[k].runId == runId then m.keys[k].(failed := retryable) else m.keys[k])
  }

  // ---------- In PostgreSQL ----------

  const RUN_LEASE_MS: int := 30_000

  datatype RunStatus = RUNNING | COMPLETED | FAILED

  datatype RunRow = RunRow(runId: Id, conversationId: Id, status: RunStatus, retryable: bool, startedAt: Instant)

  datatype InputRow = InputRow(conversationId: Id, contentHash: Digest)

  datatype ApprovalStatus = PENDING | CONSUMED | DENIED | CANCELLED

  datatype ApprovalRow = ApprovalRow(conversationId: Id, approval: T.Approval, status: ApprovalStatus)

  /** A conversation row with the rows that hang on it: messages, the versions of its intent snapshots and
      the sequence numbers of its events, each in insertion order. `columns` never holds an approval. */
  datatype PgConversation = PgConversation(
    principalId: Id, state: T.State, intent: Intent, offers: seq<T.Offer>, columns: T.Operation,
    version: nat, active: Option<Id>, messages: seq<Message>, snapshots: seq<nat>, events: seq<nat>)

  /** User messages and runs are keyed by the idempotency key, a unique column of both tables. */
  datatype Pg = Pg(
    conversations: map<Id, PgConversation>, inputs: map<Id, InputRow>, runs: map<Id, RunRow>, approvals: map<Id, ApprovalRow>)

  ghost predicate IsPending(approvals: map<Id, ApprovalRow>, id: Id, a: Id) {
    a in approvals && approvals[a].conversationId == id && approvals[a].status == PENDING
  }

  ghost function PendingOf(approvals: map<Id, ApprovalRow>, id: Id): Option<T.Approval> {
    if a :| IsPending(approvals, id, a) then Some(approvals[a].approval) else None
  }

  /** `conversationFrom`. */
  ghost function ViewOf(approvals: map<Id, ApprovalRow>, id: Id, row: PgConversation): View {
    View(T.Conversation(row.state, row.intent, row.offers, row.columns.(pending := PendingOf(approvals, id))),
         row.version, row.active, row.messages)
  }

  function PgCreate(db: Pg, id: Id, principalId: Id): (Outcome, Pg) {
    (Created, db.(conversations := db.conversations[id :=
      PgConversation(principalId, NEW_BODY.state, NEW_BODY.intent, NEW_BODY.offers, NEW_BODY.operation, 0, None, [], [0], [1])]))
  }

  function PgDiscard(db: Pg, id: Id, principalId: Id): (r: (Outcome, Pg))
    ensures r.0 != Corrupt
  {
    if id !in db.conversations || db.conversations[id].principalId != principalId then (NotFound, db)
    else if db.conversations[id].active.Some? then (InProgress, db)
    else
      (Deleted, Pg(
        db.conversations - {id},
        map k | k in db.inputs && db.inputs[k].conversationId != id :: db.inputs[k],
        map k | k in db.runs && db.runs[k].conversationId != id :: db.runs[k],
        map a | a in db.approvals && db.approvals[a].conversationId != id :: db.approvals[a]))
  }

  /** `coalesce(max(sequence), 0)` over the messages of a conversation. */
  function MaxSequence(messages: seq<Message>): nat {
    if messages == [] then 0
    else
      var rest, last := MaxSequence(messages[..|messages| - 1]), messages[|messages| - 1].sequence;
      if last > rest then last else rest
  }

  function MaxEvent(events: seq<nat>): nat {
    if events == [] then 0
    else
      var rest, last := MaxEvent(events[..|events| - 1]), events[|events| - 1];
      if last > rest then last else rest
  }

  function PgPush(row: PgConversation, role: Role): seq<Message> {
    row.messages + [Message(MaxSequence(row.messages) + 1, role)]
  }

  ghost function PgClaim(db: Pg, c: Command, now: Instant, runId: Id): (Outcome, Pg) {
    if c.key in db.inputs then
      var input := db.inputs[c.key];
      if input.conversationId != c.conversationId || input.contentHash != c.contentHash then (KeyConflict, db)
      else if c.key !in db.runs || c.conversationId !in db.conversations then (Corrupt, db)
      else
        var run := db.runs[c.key];
        var row := db.conversations[c.conversationId];
        if run.status == COMPLETED then (Replayed(ViewOf(db.approvals, c.conversationId, row)), db)
        else if run.status == RUNNING && row.active == Some(run.runId) && now - run.startedAt >= RUN_LEASE_MS then
          (Claimed(run.runId, ViewOf(db.approvals, c.conversationId, row)),
           db.(runs := db.runs[c.key := run.(startedAt := now)]))
        else if run.status == FAILED && run.retryable && row.active.None? then
          var row' := row.(active := Some(run.runId));
          (Claimed(run.runId, ViewOf(db.approvals, c.conversationId, row')),
           db.(conversations := db.conversations[c.conversationId := row'],
               runs := db.runs[c.key := run.(status := RUNNING, retryable := false, startedAt := now)]))
        else (InProgress, db)
    else if c.conversationId !in db.conversations then (NotFound, db)
    else if db.conversations[c.conversationId].active.Some? then (InProgress, db)
    else
      var row := db.conversations[c.conversationId];
      var row' := row.(messages := PgPush(row, USER), active := Some(runId));
      (Claimed(runId, ViewOf(db.approvals, c.conversationId, row')),
       db.(conversations := db.conversations[c.conversationId := row'],
           inputs := db.inputs[c.key := InputRow(c.conversationId, c.contentHash)],
           runs := db.runs[c.key := RunRow(runId, c.conversationId, RUNNING, false, now)]))
  }

  /** How a finished turn settles the approvals still pending. */
  function SettledAs(intent: Intent): ApprovalStatus {
    if intent.confirmation.None? then CANCELLED
    else if intent.confirmation.value.decision == CONFIRMED then CONSUMED else ApprovalStatus.DENIED
  }

  /** The approvals after a turn with an operation; None where the primary key is taken. */
  function ApprovalsAfter(approvals: map<Id, ApprovalRow>, id: Id, f: Finished): Option<map<Id, ApprovalRow>> {
    if f.operation.None? then Some(approvals)
    else
      var settled := map a | a in approvals ::
        if approvals[a].conversationId == id && approvals[a].status == PENDING then approvals[a].(status := SettledAs(f.intent))
        else approvals[a];
      var pending := f.operation.value.pending;
      if pending.None? then Some(settled)
      else if pending.value.approvalId in approvals then None
      else Some(settled[pending.value.approvalId := ApprovalRow(id, pending.value, PENDING)])
  }

  function EventNumbers(from: nat, n: nat): (r: seq<nat>)
    ensures |r| == n && forall i :: 0 <= i < n ==> r[i] == from + i
  {
    seq(n, i requires 0 <= i < n => from + i)
  }

  /** One event for the text, one for each announced state (at least the final one), one for the turn. */
  function EventCount(f: Finished): nat {
    2 + if f.transitions == 0 then 1 else f.transitions
  }

  function FinishedRow(row: PgConversation, f: Finished): PgConversation {
    row.(messages := PgPush(row, ASSISTANT),
         state := f.state, version := row.version + 1, intent := f.intent, offers := f.offers, active := None,
         columns := if f.operation.Some? then f.operation.value.(pending := None) else row.columns,
         snapshots := row.snapshots + [row.version + 1],
         events := row.events + EventNumbers(MaxEvent(row.events) + 1, EventCount(f)))
  }

  ghost predicate IsRun(runs: map<Id, RunRow>, k: Id, runId: Id) {
    k in runs && runs[k].runId == runId
  }

  ghost function PgComplete(db: Pg, runId: Id, f: Finished): (Outcome, Pg) {
    if k :| IsRun(db.runs, k, runId) then PgCompleteRun(db, k, f) else (NotActive, db)
  }

  ghost function PgCompleteRun(db: Pg, k: Id, f: Finished): (r: (Outcome, Pg))
    requires k in db.runs
    ensures r.0 != Corrupt
  {
    var run := db.runs[k];
    var id := run.conversationId;
    if id !in db.conversations || db.conversations[id].active != Some(run.runId) || run.status != RUNNING then (NotActive, db)
    else
      var approvals := ApprovalsAfter(db.approvals, id, f);
      if approvals.None? then (DuplicateApproval, db)
      else
        var row := FinishedRow(db.conversations[id], f);
        (Completed(ViewOf(approvals.value, id, row)),
         Pg(db.conversations[id := row], db.inputs, db.runs[k := run.(status := COMPLETED)], approvals.value))
  }

  ghost function PgFail(db: Pg, runId: Id, retryable: bool): (Outcome, Pg) {
    if k :| IsRun(db.runs, k, runId) then (Settled, PgFailRun(db, k, retryable)) else (Settled, db)
  }

  function PgFailRun(db: Pg, k: Id, retryable: bool): Pg
    requires k in db.runs
  {
    var run := db.runs[k];
    var id := run.conversationId;
    db.(runs := if run.status == RUNNING then db.runs[k := run.(status := FAILED, retryable := retryable)] else db.runs,
        conversations := if id in db.conversations && db.conversations[id].active == Some(run.runId)
                         then db.conversations[id := db.conversations[id].(active := None)] else db.conversations)
  }

  // ---------- Calls ----------

  datatype Call =
    | Create(id: Id, principalId: Id)
    | Discard(id: Id, principalId: Id)
    | Claim(command: Command, now: Instant, runId: Id)
    | Complete(completedRun: Id, result: Finished)
    | Fail(failedRun: Id, retryable: bool)
}
