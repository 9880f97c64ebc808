/** Both repositories as they run, row by row and map by map, against their specifications
    (travelbot/in-memory-repository.ts, travelbot/postgres-repository.ts). */
module TurnRepositories {
  import opened Common
  import opened TurnProtocol

  class InMemoryTravelBotRepository {
    var conversations: map<Id, MemConversation>
    var messageKeys: map<Id, MemKey>

    function State(): Mem
      reads this
    {
      Mem(conversations, messageKeys)
    }

    constructor ()
      ensures State() == Mem(map[], map[])
    {
      conversations, messageKeys := map[], map[];
    }

    method Discard(conversationId: Id, principalId: Id) returns (r: Outcome)
      modifies this
      ensures (r, State()) == MemDiscard(old(State()), conversationId, principalId)
    {
      if conversationId !in conversations || conversations[conversationId].principalId != principalId { return NotFound; }
      if conversations[conversationId].view.active.Some? { return InProgress; }
      conversations := conversations - {conversationId};
      messageKeys := map k | k in messageKeys && messageKeys[k].conversationId != conversationId :: messageKeys[k];
      return Deleted;
    }

    method ClaimTurn(c: Command, runId: Id) returns (r: Outcome)
      modifies this
      ensures (r, State()) == MemClaim(old(State()), c, runId)
    {
      if c.key in messageKeys {
        var replay := messageKeys[c.key];
        if replay.conversationId != c.conversationId || replay.contentHash != c.contentHash { return KeyConflict; }
        if c.conversationId !in conversations { return Corrupt; }
        var conversation := conversations[c.conversationId];
        if replay.complete { return Replayed(conversation.view); }
        if replay.failed && conversation.view.active.None? {
          messageKeys := messageKeys[c.key := replay.(failed := false)];
          conversation := conversation.(view := conversation.view.(active := Some(replay.runId)));
          conversations := conversations[c.conversationId := conversation];
          return Claimed(replay.runId, conversation.view);
        }
        return InProgress;
      }
      if c.conversationId !in conversations { return NotFound; }
      var conversation := conversations[c.conversationId];
      if conversation.view.active.Some? { return InProgress; }
      var view := conversation.view.(messages := Push(conversation.view, USER));
      view := view.(active := Some(runId));
      conversations := conversations[c.conversationId := conversation.(view := view)];
      messageKeys := messageKeys[c.key := MemKey(c.conversationId, runId, c.contentHash, false, false)];
      return Claimed(runId, view);
    }

    /** The first conversation whose active run this is. */
    method FindActive(runId: Id) returns (r: Option<Id>)
      ensures r.Some? ==> ActiveIn(State(), r.value, runId)
      ensures r.None? ==> forall id :: !ActiveIn(State(), id, runId)
    {
      var left := conversations.Keys;
      while left != {}
        invariant left <= conversations.Keys
        invariant forall id :: ActiveIn(State(), id, runId) ==> id in left
      {
        var id :| id in left;
        if conversations[id].view.active == Some(runId) { return Some(id); }
        left := left - {id};
      }
      return None;
    }

    method CompleteTurn(runId: Id, f: Finished) returns (r: Outcome)
      modifies this
      ensures
        if exists id :: ActiveIn(old(State()), id, runId)
        then exists id :: ActiveIn(old(State()), id, runId) && (r, State()) == MemCompleteIn(old(State()), id, runId, f)
        else r == NotActive && State() == old(State())
    {
      var found := FindActive(runId);
      if found.None? { return NotActive; }
      var conversation := conversations[found.value];
      var view := conversation.view;
      view := view.(body := FinishedBody(view.body, f));
      view := view.(version := view.version + 1);
      view := view.(messages := Push(view, ASSISTANT));
      view := view.(active := None);
      assert ActiveIn(State(), found.value, runId);
      conversations := conversations[found.value := conversation.(view := view)];
      messageKeys := map k | k in messageKeys ::
        if messageKeys[k].runId == runId then messageKeys[k].(complete := true) else messageKeys[k];
      return Completed(view);
    }

    method FailTurn(runId: Id, retryable: bool)
      modifies this
      ensures
        if exists id :: ActiveIn(old(State()), id, runId)
        then exists id :: ActiveIn(old(State()), id, runId) && State() == MemFailIn(old(State()), Some(id), runId, retryable)
        else State() == MemFailIn(old(State()), None, runId, retryable)
    {
      ghost var before := State();
      var found := FindActive(runId);
      assert State() == before;
      if found.Some? {
        var conversation := conversations[found.value];
        conversations := conversations[found.value := conversation.(view := conversation.view.(active := None))];
      }
      messageKeys := map k | k in messageKeys ::
        if messageKeys[k].runId == runId then messageKeys[k].(failed := retryable) else messageKeys[k];
      assert found.Some? ==> ActiveIn(before, found.value, runId);
      assert State() == MemFailIn(before, found, runId, retryable);
      assert found == if found.Some? then Some(found.value) else None;
    }
  }

  class PostgresTravelBotRepository {
    var conversations: map<Id, PgConversation>
    var inputs: map<Id, InputRow>
    var runs: map<Id, RunRow>
    var approvals: map<Id, ApprovalRow>

    function Rows(): Pg
      reads this
    {
      Pg(conversations, inputs, runs, approvals)
    }

    /** At most one approval of a conversation is pending, and run ids are a primary key. */
    ghost predicate Valid()
      reads this
    {
      && (forall id, a, b :: IsPending(approvals, id, a) && IsPending(approvals, id, b) ==> a == b)
      && (forall j, k :: j in runs && k in runs && j != k ==> runs[j].runId != runs[k].runId)
    }

    constructor ()
      ensures Valid() && Rows() == Pg(map[], map[], map[], map[])
    {
      conversations, inputs, runs, approvals := map[], map[], map[], map[];
    }

    /** `conversationFrom`: the row and the approval that is still pending, if any. */
    method ConversationFrom(id: Id, row: PgConversation) returns (v: View)
      requires Valid()
      ensures v == ViewOf(approvals, id, row)
    {
      var pending: Option<T.Approval> := None;
      var left := approvals.Keys;
      while left != {} && pending.None?
        invariant left <= approvals.Keys
        invariant pending.Some? ==> exists a :: IsPending(approvals, id, a) && pending == Some(approvals[a].approval)
        invariant pending.None? ==> forall a :: IsPending(approvals, id, a) ==> a in left
      {
        var a :| a in left;
        if approvals[a].conversationId == id && approvals[a].status == PENDING {
          pending := Some(approvals[a].approval);
          assert IsPending(approvals, id, a);
        }
        left := left - {a};
      }
      return View(T.Conversation(row.state, row.intent, row.offers, row.columns.(pending := pending)),
                  row.version, row.active, row.messages);
    }

    /** The run of this id, as its primary-key query finds it. */
    method FindRun(runId: Id) returns (r: Option<Id>)
      ensures r.Some? ==> IsRun(runs, r.value, runId)
      ensures r.None? ==> forall k :: !IsRun(runs, k, runId)
    {
      var left := runs.Keys;
      while left != {}
        invariant left <= runs.Keys
        invariant forall k :: IsRun(runs, k, runId) ==> k in left
      {
        var k :| k in left;
        if runs[k].runId == runId { return Some(k); }
        left := left - {k};
      }
      return None;
    }

    method Discard(conversationId: Id, principalId: Id) returns (r: Outcome)
      requires Valid()
      modifies this
      ensures Valid()
      ensures (r, Rows()) == PgDiscard(old(Rows()), conversationId, principalId)
    {
      if conversationId !in conversations || conversations[conversationId].principalId != principalId { return NotFound; }
      if conversations[conversationId].active.Some? { return InProgress; }
      ghost var before := approvals;
      approvals := map a | a in approvals && approvals[a].conversationId != conversationId :: approvals[a];
      assert forall id, a :: IsPending(approvals, id, a) ==> IsPending(before, id, a);
      runs := map k | k in runs && runs[k].conversationId != conversationId :: runs[k];
      inputs := map k | k in inputs && inputs[k].conversationId != conversationId :: inputs[k];
      conversations := conversations - {conversationId};
      return Deleted;
    }

    method ClaimTurn(c: Command, now: Instant, runId: Id) returns (r: Outcome)
      requires Valid() && forall k :: !IsRun(runs, k, runId)
      modifies this
      ensures Valid()
      ensures (r, Rows()) == PgClaim(old(Rows()), c, now, runId)
    {
      hide IsPending, ViewOf, PgPush;
      if c.key in inputs {
        var replay := inputs[c.key];
        if replay.conversationId != c.conversationId || replay.contentHash != c.contentHash { return KeyConflict; }
        if c.key !in runs || c.conversationId !in conversations { return Corrupt; }
        var run, row := runs[c.key], conversations[c.conversationId];
        if run.status == COMPLETED {
          var view := ConversationFrom(c.conversationId, row);
          return Replayed(view);
        }
        if run.status == RUNNING && row.active == Some(run.runId) && now - run.startedAt >= RUN_LEASE_MS {
          runs := runs[c.key := run.(startedAt := now)];
          var view := ConversationFrom(c.conversationId, row);
          return Claimed(run.runId, view);
        }
        if run.status == FAILED && run.retryable && row.active.None? {
          runs := runs[c.key := run.(status := RUNNING, retryable := false, startedAt := now)];
          row := row.(active := Some(run.runId));
          conversations := conversations[c.conversationId := row];
          var view := ConversationFrom(c.conversationId, row);
          return Claimed(run.runId, view);
        }
        return InProgress;
      }
      if c.conversationId !in conversations { return NotFound; }
      var row := conversations[c.conversationId];
      if row.active.Some? { return InProgress; }
      assert forall k :: k in runs ==> !IsRun(runs, k, runId) && runs[k].runId != runId;
      inputs := inputs[c.key := InputRow(c.conversationId, c.contentHash)];
      runs := runs[c.key := RunRow(runId, c.conversationId, RUNNING, false, now)];
      row := row.(messages := PgPush(row, USER), active := Some(runId));
      conversations := conversations[c.conversationId := row];
      var view := ConversationFrom(c.conversationId, row);
      return Claimed(runId, view);
    }

    /** Settles what is pending and inserts the new approval; a taken primary key fails. */
    method WriteApprovals(id: Id, f: Finished) returns (written: bool)
      requires Valid()
      modifies this`approvals
      ensures Valid()
      ensures var spec := ApprovalsAfter(old(approvals), id, f);
        written == spec.Some? && approvals == if spec.Some? then spec.value else old(approvals)
    {
      if f.operation.None? { return true; }
      ghost var before := approvals;
      var pending := f.operation.value.pending;
      if pending.Some? && pending.value.approvalId in approvals { return false; }
      approvals := map a | a in approvals ::
        if approvals[a].conversationId == id && approvals[a].status == PENDING then approvals[a].(status := SettledAs(f.intent))
        else approvals[a];
      assert forall c, a :: IsPending(approvals, c, a) <==> c != id && IsPending(before, c, a);
      if pending.Some? {
        ghost var settled := approvals;
        approvals := approvals[pending.value.approvalId := ApprovalRow(id, pending.value, PENDING)];
        assert forall c, a :: IsPending(approvals, c, a) <==>
          (c == id && a == pending.value.approvalId) || (IsPending(settled, c, a) && a != pending.value.approvalId);
      }
      return true;
    }

    method CompleteTurn(runId: Id, f: Finished) returns (r: Outcome)
      requires Valid()
      modifies this
      ensures Valid()
      ensures (r, Rows()) == PgComplete(old(Rows()), runId, f)
    {
      hide IsPending, ViewOf, ApprovalsAfter, MaxSequence, MaxEvent;
      var found := FindRun(runId);
      if found.None? { return NotActive; }
      var k := found.value;
      assert PgComplete(Rows(), runId, f) == PgCompleteRun(Rows(), k, f);
      var run := runs[k];
      var id := run.conversationId;
      if id !in conversations || conversations[id].active != Some(run.runId) || run.status != RUNNING { return NotActive; }
      var row := conversations[id];
      row := row.(messages := PgPush(row, ASSISTANT));
      row := row.(state := f.state, version := row.version + 1, intent := f.intent, offers := f.offers, active := None,
                  columns := if f.operation.Some? then f.operation.value.(pending := None) else row.columns);
      var written := WriteApprovals(id, f);
      if !written { return DuplicateApproval; }
      row := row.(snapshots := row.snapshots + [row.version]);
      runs := runs[k := run.(status := COMPLETED)];
      row := row.(events := row.events + EventNumbers(MaxEvent(row.events) + 1, EventCount(f)));
      conversations := conversations[id := row];
      var view := ConversationFrom(id, row);
      return Completed(view);
    }

    method FailTurn(runId: Id, retryable: bool)
      requires Valid()
      modifies this
      ensures Valid()
      ensures (Settled, Rows()) == PgFail(old(Rows()), runId, retryable)
    {
      hide IsPending;
      var found := FindRun(runId);
      if found.None? { return; }
      var k := found.value;
      assert PgFail(Rows(), runId, retryable) == (Settled, PgFailRun(Rows(), k, retryable));
      var run := runs[k];
      if run.status == RUNNING { runs := runs[k := run.(status := FAILED, retryable := retryable)]; }
      if run.conversationId in conversations && conversations[run.conversationId].active == Some(run.runId) {
        conversations := conversations[run.conversationId := conversations[run.conversationId].(active := None)];
      }
    }
  }
}
