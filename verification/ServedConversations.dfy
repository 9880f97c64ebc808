/** Whole messages served over the transactional repository, and what becomes of the approval a conversation was
    waiting on (travelbot/service.ts over travelbot/postgres-repository.ts). */
module ServedConversations {
  import opened Common
  import opened TravelPolicy
  import opened TravelRuns
  import opened TravelLimits
  import opened TurnProtocol
  import opened TurnInvariant
  import opened ServiceOverPostgres
  import opened ApprovalRows
  import Calendar
  import D = Decisions
  import T = TravelBot

  /** A user message, the run it is served as, and what its turn is given. */
  datatype Served = Served(key: Id, contentHash: Digest, now: Instant, runId: Id, env: T.Env, transitions: nat, retryable: bool)

  /** Claim, turn, completion; a turn that fails, or whose completion does, is given up. */
  ghost function Serve(s: PgSystem, id: Id, m: Served): PgSystem {
    var (claim, claimed) := PgNext(s, Claim(Command(id, m.key, m.contentHash), m.now, m.runId));
    if !claim.Claimed? then claimed
    else
      var r := Attempt(claim.view.body, m.env);
      if !r.completed then PgNext(claimed, Fail(claim.runId, m.retryable)).1
      else
        var (done, completed) := PgNext(claimed, Complete(claim.runId, FinishedAs(r.conversation, m.transitions)));
        if done.Completed? then completed else PgNext(completed, Fail(claim.runId, m.retryable)).1
  }

  /** A conversation between two messages, and a message that is new to it. */
  ghost predicate Ready(s: PgSystem, id: Id, m: Served) {
    && PgInv(s.db, s.drawn) && id in s.db.conversations && s.db.conversations[id].active.None?
    && m.key !in s.db.inputs && m.runId !in s.drawn
  }

  ghost function BodyOf(s: PgSystem, id: Id): T.Conversation
    requires id in s.db.conversations
  {
    ViewOf(s.db.approvals, id, s.db.conversations[id]).body
  }

  /** The turn's result is stored: the turn succeeds and makes no approval under an id that is taken. */
  ghost predicate Stored(s: PgSystem, id: Id, m: Served)
    requires id in s.db.conversations
  {
    var r := Attempt(BodyOf(s, id), m.env);
    r.completed && (r.conversation.operation.pending.Some? ==> r.conversation.operation.pending.value.approvalId !in s.db.approvals)
  }

  ghost function ClaimOf(s: PgSystem, id: Id, m: Served): PgSystem {
    PgNext(s, Claim(Command(id, m.key, m.contentHash), m.now, m.runId)).1
  }

  lemma NewClaim(s: PgSystem, id: Id, m: Served)
    requires Ready(s, id, m)
    ensures var (claim, claimed) := PgNext(s, Claim(Command(id, m.key, m.contentHash), m.now, m.runId));
      && claim.Claimed? && claim.runId == m.runId && claim.view.body == BodyOf(s, id)
      && PgInv(claimed.db, claimed.drawn) && id in claimed.db.conversations && claimed.db.conversations[id].active == Some(m.runId)
      && claimed.db.approvals == s.db.approvals && BodyOf(claimed, id) == BodyOf(s, id)
      && claimed.drawn == s.drawn + {m.runId} && claimed.db.inputs.Keys == s.db.inputs.Keys + {m.key}
  {
    hide PgInv, PgPush;
    PgKeeps(s, Claim(Command(id, m.key, m.contentHash), m.now, m.runId));
  }

  lemma EndsTurn(s: PgSystem, id: Id, runId: Id, f: Finished)
    requires PgInv(s.db, s.drawn) && id in s.db.conversations && s.db.conversations[id].active == Some(runId)
    requires f.operation.Some? && (f.operation.value.pending.Some? ==> f.operation.value.pending.value.approvalId !in s.db.approvals)
    ensures var (o, s') := PgNext(s, Complete(runId, f));
      && o.Completed? && PgInv(s'.db, s'.drawn) && s'.drawn == s.drawn && s'.db.inputs == s.db.inputs
      && id in s'.db.conversations && s'.db.conversations[id].active.None?
      && BodyOf(s', id) == T.Conversation(f.state, f.intent, f.offers, f.operation.value)
  {
    hide PgInv, RowOk, UniqueRuns, ApprovalsOk, ApprovalsAfter, MaxEvent, PgPush, EventNumbers, PendingOf;
    CompletesActive(s.db, s.drawn, id, runId, f);
    PgKeeps(s, Complete(runId, f));
    InvAt(s.db, s.drawn, id);
    OnlyActive(s.db, s.drawn, id, runId);
    assert ConversationOk(s.db, id);
    if k :| IsRun(s.db.runs, k, runId) && PgComplete(s.db, runId, f) == PgCompleteRun(s.db, k, f) {
      assert s.db.runs[k].conversationId == id;
      ApprovalsStayOk(s.db, id, f);
    }
  }

  lemma GivesUp(s: PgSystem, id: Id, runId: Id, retryable: bool)
    requires PgInv(s.db, s.drawn) && id in s.db.conversations && s.db.conversations[id].active == Some(runId)
    ensures var s' := PgNext(s, Fail(runId, retryable)).1;
      && PgInv(s'.db, s'.drawn) && s'.drawn == s.drawn && s'.db.inputs == s.db.inputs && s'.db.approvals == s.db.approvals
      && id in s'.db.conversations && s'.db.conversations[id].active.None? && BodyOf(s', id) == BodyOf(s, id)
  {
    hide PgInv, RowOk, UniqueRuns, ApprovalsOk, PendingOf;
    PgKeeps(s, Fail(runId, retryable));
    InvAt(s.db, s.drawn, id);
    OnlyActive(s.db, s.drawn, id, runId);
    assert ConversationOk(s.db, id);
    var j :| RunOf(s.db.runs, id, runId, j);
    assert IsRun(s.db.runs, j, runId);
    if k :| IsRun(s.db.runs, k, runId) && PgFail(s.db, runId, retryable) == (Settled, PgFailRun(s.db, k, retryable)) {
      assert RunOk(s.db, k);
      if k != j { OtherRun(s.db.runs, s.drawn, j, k); }
    }
  }

  /** Serving a message leaves the conversation idle with the turn's result where it could be stored, and as it was
      where not. */
  lemma ServedExactly(s: PgSystem, id: Id, m: Served)
    requires Ready(s, id, m)
    ensures var s' := Serve(s, id, m);
      && PgInv(s'.db, s'.drawn) && id in s'.db.conversations && s'.db.conversations[id].active.None?
      && BodyOf(s', id) == (if Stored(s, id, m) then Attempt(BodyOf(s, id), m.env).conversation else BodyOf(s, id))
      && s'.drawn == s.drawn + {m.runId} && s'.db.inputs.Keys == s.db.inputs.Keys + {m.key}
      && (!Stored(s, id, m) ==> s'.db.approvals == s.db.approvals)
  {
    hide PgInv, PgNext, Attempt, ViewOf;
    NewClaim(s, id, m);
    var claimed := ClaimOf(s, id, m);
    var r := Attempt(BodyOf(s, id), m.env);
    if !r.completed {
      GivesUp(claimed, id, m.runId, m.retryable);
    } else if Stored(s, id, m) {
      EndsTurn(claimed, id, m.runId, FinishedAs(r.conversation, m.transitions));
    } else {
      Duplicate(claimed, id, m.runId, FinishedAs(r.conversation, m.transitions));
      GivesUp(claimed, id, m.runId, m.retryable);
    }
  }

  lemma Duplicate(s: PgSystem, id: Id, runId: Id, f: Finished)
    requires PgInv(s.db, s.drawn) && id in s.db.conversations && s.db.conversations[id].active == Some(runId)
    requires f.operation.Some? && f.operation.value.pending.Some? && f.operation.value.pending.value.approvalId in s.db.approvals
    ensures PgNext(s, Complete(runId, f)) == (DuplicateApproval, s)
  {
    hide PgInv, PgComplete;
    CompletesActive(s.db, s.drawn, id, runId, f);
  }

  /** And where it is stored, a row of this conversation that was pending is settled as the new intent says. */
  lemma ServedSettles(s: PgSystem, id: Id, m: Served, a: Id)
    requires Ready(s, id, m) && Stored(s, id, m) && IsPending(s.db.approvals, id, a)
    ensures var after := Serve(s, id, m).db.approvals;
      && a in after && after[a] == s.db.approvals[a].(status := after[a].status)
      && SettledBy(after[a].status, Attempt(BodyOf(s, id), m.env).conversation.intent)
  {
    hide PgInv, PgNext, Attempt, ViewOf, SettledBy;
    NewClaim(s, id, m);
    var claimed := ClaimOf(s, id, m);
    var r := Attempt(BodyOf(s, id), m.env);
    EndsTurn(claimed, id, m.runId, FinishedAs(r.conversation, m.transitions));
    RowsMove(claimed, Complete(m.runId, FinishedAs(r.conversation, m.transitions)));
    assert RowMoves(claimed, Complete(m.runId, FinishedAs(r.conversation, m.transitions)), a);
  }

  /** A message writes no approval but its turn's own. */
  lemma ServedWrites(s: PgSystem, id: Id, m: Served, a: Id)
    requires Ready(s, id, m) && a in Serve(s, id, m).db.approvals && a !in s.db.approvals
    ensures var pending := Attempt(BodyOf(s, id), m.env).conversation.operation.pending;
      pending.Some? && a == pending.value.approvalId
  {
    hide PgInv, PgNext, Attempt, ViewOf;
    ServedExactly(s, id, m);
    NewClaim(s, id, m);
    var claimed := ClaimOf(s, id, m);
    var r := Attempt(BodyOf(s, id), m.env);
    var end := Complete(m.runId, FinishedAs(r.conversation, m.transitions));
    EndsTurn(claimed, id, m.runId, end.result);
    RowsMove(claimed, end);
    assert RowIsNew(claimed, end, a);
  }

  lemma PendingRow(s: PgSystem, id: Id)
    requires PgInv(s.db, s.drawn) && id in s.db.conversations && BodyOf(s, id).operation.pending.Some?
    ensures IsPending(s.db.approvals, id, BodyOf(s, id).operation.pending.value.approvalId)
  {
    hide RunOk, ConversationOk, UniqueRuns;
    var a :| IsPending(s.db.approvals, id, a) && s.db.approvals[a].approval == PendingOf(s.db.approvals, id).value;
  }

  // ---------- Settled as the customer decided? ----------

  /** The merchant no longer answers with the checkout that the approval was made for. */
  predicate WentStale(c: T.Conversation, p: T.PurchaseAnswers) {
    p.checkout.Some? && c.operation.pending.Some? &&
    (Some(p.checkout.value.checkoutId) != c.operation.checkoutId
     || p.checkout.value.checkoutHash != c.operation.pending.value.checkoutHash
     || p.checkout.value.total != c.operation.pending.value.amount)
  }

  /** What a stored message makes of the decision that the conversation remembers. */
  function Remembers(c: T.Conversation, env: T.Env): Option<Settlement> {
    if D.Plain(c, env) && env.runtime.proposal.confirmation == Some(DENY) then Some(TravelPolicy.DENIED)
    else if D.Plain(c, env) && env.runtime.proposal.confirmation == Some(CONFIRM) then
      (if WentStale(c, env.purchase) then None else Some(CONFIRMED))
    else if c.intent.confirmation.Some? then Some(c.intent.confirmation.value.decision)
    else None
  }

  lemma WaitingRemembers(c: T.Conversation, env: T.Env, b: T.Binding)
    requires c.state == T.AWAITING_AUTHORITY_CONFIRMATION && BoundTo(c, b) && Attempt(c, env).completed
    ensures var d := Attempt(c, env).conversation.intent.confirmation;
      if d.Some? then Remembers(c, env) == Some(d.value.decision) else Remembers(c, env) == None
  {
    hide T.Turn, D.Plain, BoundTo, StopsKnown, Changed, Merged, Rejected;
    BoundParts(c, b);
    BoundView(c, b);
    var stored := env.(persists := true);
    assert D.Plain(c, stored) == D.Plain(c, env) by { SamePlain(c, env); }
    if !env.runtime.Proposed? {
      D.IdleTurn(c, stored);
      NeverPlain(c, env);
    } else if D.Plain(c, env) && env.runtime.proposal.confirmation == Some(DENY) {
      D.DenyTurn(c, stored, b);
    } else if D.Plain(c, env) && env.runtime.proposal.confirmation == Some(CONFIRM) {
      D.ConfirmTurn(c, stored, b);
    } else {
      D.DecisionCases(env.runtime.proposal);
      D.UndecidedTurn(c, stored, b);
    }
  }

  lemma SamePlain(c: T.Conversation, env: T.Env)
    ensures D.Plain(c, env.(persists := true)) == D.Plain(c, env)
  {
  }

  lemma NeverPlain(c: T.Conversation, env: T.Env)
    ensures D.Plain(c, env) ==> env.runtime.Proposed?
  {
  }

  /** The approval of every reachable waiting conversation, for every message that is stored: it becomes CONSUMED,
      DENIED or CANCELLED as the message decides of it; but a message that does not decide settles it as the
      conversation decided of an earlier one, if it remembers that it did. */
  lemma ApprovalSettledExactly(envs: seq<T.Env>, s: PgSystem, id: Id, m: Served, a: Id)
    requires RunTurns(CREATED, envs).conversation.state == T.AWAITING_AUTHORITY_CONFIRMATION
    requires Ready(s, id, m) && BodyOf(s, id) == RunTurns(CREATED, envs).conversation
    requires Stored(s, id, m) && IsPending(s.db.approvals, id, a)
    ensures var c, after := RunTurns(CREATED, envs).conversation, Serve(s, id, m).db.approvals;
      && a in after && after[a] == s.db.approvals[a].(status := after[a].status)
      && (after[a].status == ApprovalStatus.CONSUMED <==> Remembers(c, m.env) == Some(CONFIRMED))
      && (after[a].status == ApprovalStatus.DENIED <==> Remembers(c, m.env) == Some(TravelPolicy.DENIED))
      && (after[a].status == ApprovalStatus.CANCELLED <==> Remembers(c, m.env) == None)
  {
    hide PgInv, PgNext, Serve, Attempt, ViewOf, RunTurns, TurnInv, BoundTo, Remembers;
    CreatedInv();
    TravelRuns.RunKeeps(CREATED, envs);
    var t := RunTurns(CREATED, envs);
    WaitingIsBound(t.conversation, LastPersisted(t.trace));
    WaitingRemembers(t.conversation, m.env, LastPersisted(t.trace).value);
    ServedSettles(s, id, m, a);
  }

  // ---------- An approval settled by the decision on another ----------

  function On(raw: Proposal, approvalId: Id): (env: T.Env)
    ensures env.runtime == T.Proposed(raw) && env.resumes && env.persists && env.now == Noon(FIRST_DAY)
  {
    Says(raw, FIRST_DAY).(approvalId := approvalId)
  }

  const FIRST_DAY := Calendar.Civil(2030, 1, 1)

  /** The traveller asks and refuses, asks again, and raises the budget. */
  function Refuses(): T.Env { On(Proposal(map[], {}, None, Some(DENY), NONE), "") }

  function AsksAgain(): T.Env { On(Proposal(map[], {}, None, None, FIND_OFFERS), "approval2") }

  function Four(): seq<Served> {
    [Served("k1", "", 0, "r1", Asks(), 0, true), Served("k2", "", 0, "r2", Refuses(), 0, true),
     Served("k3", "", 0, "r3", AsksAgain(), 0, true), Served("k4", "", 0, "r4", Raises(), 0, true)]
  }

  function Refused(): T.Conversation {
    T.Conversation(T.COLLECTING, Intent(KnownTrip(), None, D.Decided(Pending(), TravelPolicy.DENIED)), [], D.NoOperation())
  }

  function WaitingAgain(): T.Conversation {
    T.Conversation(T.AWAITING_AUTHORITY_CONFIRMATION, Intent(KnownTrip(), Some("offer"), D.Decided(Pending(), TravelPolicy.DENIED)), [Found()],
      T.Operation(Some("c"), Some("hash"), Some("m"), None, None, Some(Pending().(approvalId := "approval2"))))
  }

  lemma PlainOn(c: T.Conversation, raw: Proposal, approvalId: Id)
    requires c.intent.fields == KnownTrip() && raw.fields == map[]
    ensures D.Plain(c, On(raw, approvalId))
  {
    hide Noon, Calendar.DayNumber, Lapsed, KnownTrip, On;
    AheadInJanuary();
  }

  lemma RefusingTurn()
    ensures Attempt(Waiting(), Refuses()) == T.TurnResult(true, Refused(), [])
  {
    hide T.Turn, D.Plain, RunTurns, On, KnownTrip;
    WaitsThenBuys();
    PlainOn(Waiting(), Refuses().runtime.proposal, "");
    assert Refuses().(persists := true) == Refuses();
    D.DenialExactly([Asks()], Refuses());
  }

  lemma AskingAgainTurn()
    ensures Attempt(Refused(), AsksAgain()).completed && Attempt(Refused(), AsksAgain()).conversation == WaitingAgain()
  {
    hide Noon, WithConventions, Merged, Lapsed, Stops, T.Searches, T.Turn, KnownTrip, On;
    var raw := AsksAgain().runtime.proposal;
    AheadInJanuary();
    var known := KnownTrip();
    ConventionsOnComplete(KnownTrip(), raw, AsksAgain().extracted);
    var p := WithConventions(KnownTrip(), raw, AsksAgain().extracted);
    NothingMerged(KnownTrip(), p);
    assert p.ambiguous == {};
    StopsNot(KnownTrip(), p, AsksAgain().now);
    assert AsksAgain().(persists := true) == AsksAgain();
    SearchingMessage(Refused(), AsksAgain(), raw, p);
    AskingAgainSearch();
  }

  lemma AskingAgainSearch()
    ensures var r := T.Searches(CONFIGURED, Refused(), AsksAgain(), Refused().intent, D.NoOperation());
      r.completed && r.conversation == WaitingAgain()
  {
    hide Noon;
    assert T.Matches(KnownTrip(), Found());
    var offers := Filter([Found()], (o: T.Offer) => T.Matches(KnownTrip(), o));
    assert Found() in offers && |offers| <= 1;
    assert offers == [Found()];
  }

  lemma StoredOrSame(c: T.Conversation, env: T.Env)
    ensures Attempt(c, env).completed || Attempt(c, env).conversation == c
  {
    hide WithConventions, Apply, T.CheckoutGuard, T.ActivateGuard, T.PurchaseTool, T.Matches, T.FindOffer;
  }

  ghost function Begun(): PgSystem { PgNext(EMPTY.system, Create("c", "p")).1 }

  ghost function ServedFirst(): PgSystem { Serve(Begun(), "c", Four()[0]) }

  ghost function ServedRefusal(): PgSystem { Serve(ServedFirst(), "c", Four()[1]) }

  ghost function ServedAgain(): PgSystem { Serve(ServedRefusal(), "c", Four()[2]) }

  ghost predicate Idle(s: PgSystem, body: T.Conversation, keys: set<Id>, runs: set<Id>, approvals: set<Id>) {
    && PgInv(s.db, s.drawn) && "c" in s.db.conversations && s.db.conversations["c"].active.None?
    && BodyOf(s, "c") == body && s.db.inputs.Keys == keys && s.drawn == runs && s.db.approvals.Keys <= approvals
  }

  lemma BegunIdle()
    ensures Idle(Begun(), NEW_BODY, {}, {}, {})
  {
    hide PgInv;
    EmptyInv();
    PgKeeps(EMPTY.system, Create("c", "p"));
  }

  /** The next message, whose key, run and approval are new. */
  lemma NextServed(s: PgSystem, m: Served, body: T.Conversation, next: T.Conversation, keys: set<Id>, runs: set<Id>, approvals: set<Id>)
    requires Idle(s, body, keys, runs, approvals) && m.key !in keys && m.runId !in runs
    requires Attempt(body, m.env).completed && Attempt(body, m.env).conversation == next
    requires next.operation.pending.Some? ==> next.operation.pending.value.approvalId !in approvals
    ensures Ready(s, "c", m) && Stored(s, "c", m)
    ensures Idle(Serve(s, "c", m), next, keys + {m.key}, runs + {m.runId},
                 approvals + if next.operation.pending.Some? then {next.operation.pending.value.approvalId} else {})
  {
    hide PgInv, Serve, Attempt, ViewOf;
    ServedExactly(s, "c", m);
    forall a | a in Serve(s, "c", m).db.approvals && a !in s.db.approvals
      ensures next.operation.pending.Some? && a == next.operation.pending.value.approvalId
    {
      ServedWrites(s, "c", m, a);
    }
  }

  lemma OneServed()
    ensures Idle(ServedFirst(), Waiting(), {"k1"}, {"r1"}, {"approval"})
  {
    hide Idle, Serve, Begun, Attempt, Waiting, Asks, Refuses, AsksAgain, Raises;
    BegunIdle();
    FirstAttempt();
    WaitingApproval();
    NextServed(Begun(), Four()[0], NEW_BODY, Waiting(), {}, {}, {});
    assert {} + {"k1"} == {"k1"} && {} + {"r1"} == {"r1"} && {} + {"approval"} == {"approval"};
  }

  lemma TwoServed()
    ensures Idle(ServedRefusal(), Refused(), {"k1", "k2"}, {"r1", "r2"}, {"approval"})
  {
    hide Idle, Serve, ServedFirst, Attempt, Waiting, Asks, Refuses, AsksAgain, Raises, KnownTrip, Pending;
    OneServed();
    Names();
    RefusingTurn();
    NextServed(ServedFirst(), Four()[1], Waiting(), Refused(), {"k1"}, {"r1"}, {"approval"});
    assert {"k1"} + {"k2"} == {"k1", "k2"} && {"r1"} + {"r2"} == {"r1", "r2"} && {"approval"} + {} == {"approval"};
  }

  lemma ThreeServed()
    ensures Idle(ServedAgain(), WaitingAgain(), {"k1", "k2", "k3"}, {"r1", "r2", "r3"}, {"approval", "approval2"})
  {
    hide Idle, Serve, ServedRefusal, Attempt, Waiting, Refused, Asks, Refuses, AsksAgain, Raises, KnownTrip;
    TwoServed();
    Names();
    AskingAgainTurn();
    NextServed(ServedRefusal(), Four()[2], Refused(), WaitingAgain(), {"k1", "k2"}, {"r1", "r2"}, {"approval"});
    assert {"k1", "k2"} + {"k3"} == {"k1", "k2", "k3"} && {"r1", "r2"} + {"r3"} == {"r1", "r2", "r3"};
    assert {"approval"} + {"approval2"} == {"approval", "approval2"};
  }

  lemma FirstAttempt()
    ensures Attempt(NEW_BODY, Asks()).completed && Attempt(NEW_BODY, Asks()).conversation == Waiting()
  {
    hide T.Turn;
    AskingTurn();
    StoredOrSame(NEW_BODY, Asks());
    assert Asks().(persists := true) == Asks();
  }

  lemma Names()
    ensures "k2" !in {"k1"} && "k3" !in {"k1", "k2"} && "k4" !in {"k1", "k2", "k3"}
    ensures "r2" !in {"r1"} && "r3" !in {"r1", "r2"} && "r4" !in {"r1", "r2", "r3"}
    ensures "approval2" != "approval"
  {
    assert "k1"[1] == '1' && "k2"[1] == '2' && "k3"[1] == '3' && "k4"[1] == '4';
    assert "r1"[1] == '1' && "r2"[1] == '2' && "r3"[1] == '3' && "r4"[1] == '4';
    assert |"approval2"| != |"approval"|;
  }

  function NewBinding(): T.Binding { T.Binding("approval2", KnownTrip(), Found(), "c", "hash", Money(100, "USD"), "shop", "m") }

  lemma WaitingAgainBound()
    ensures BoundTo(WaitingAgain(), NewBinding())
  {
    hide Noon;
    TripAirports();
    assert T.Matches(KnownTrip(), Found());
  }

  lemma RaisingAgain()
    ensures Attempt(WaitingAgain(), Raises()).completed
    ensures Attempt(WaitingAgain(), Raises()).conversation.operation.pending.None?
    ensures Remembers(WaitingAgain(), Raises()) == Some(TravelPolicy.DENIED)
  {
    hide T.Turn, D.Plain, BoundTo, StopsKnown, Changed, Merged, Rejected, KnownTrip, Noon;
    WaitingAgainBound();
    AheadInJanuary();
    RaisedBudget(Raises().now);
    D.PlainExactly(WaitingAgain(), Raises().(persists := true), NewBinding());
    D.UndecidedTurn(WaitingAgain(), Raises().(persists := true), NewBinding());
  }

  /** Four messages, served over PostgreSQL: asked, refused, asked again, and the budget raised. The second approval
      is settled DENIED, though no message ever decided on it: the refusal of the first is remembered. */
  lemma OldDecisionSettlesNewApproval()
    ensures var s := ServedAgain();
      && "c" in s.db.conversations && IsPending(s.db.approvals, "c", "approval2")
      && BodyOf(s, "c").operation.pending.Some? && BodyOf(s, "c").operation.pending.value.approvalId == "approval2"
      && BodyOf(s, "c").intent.confirmation.Some? && BodyOf(s, "c").intent.confirmation.value.approvalId == "approval"
      && Raises().runtime.Proposed? && Raises().runtime.proposal.confirmation == None
      && var after := Serve(s, "c", Four()[3]).db.approvals;
      && "approval2" in after && after["approval2"].status == ApprovalStatus.DENIED
  {
    hide PgInv, Serve, Attempt, ViewOf, Remembers, BoundTo, SettledBy;
    ThreeServed();
    RaisingAgain();
    WaitingAgainBound();
    Names();
    var s, m := ServedAgain(), Four()[3];
    PendingRow(s, "c");
    NextServed(s, m, WaitingAgain(), Attempt(WaitingAgain(), Raises()).conversation, {"k1", "k2", "k3"}, {"r1", "r2", "r3"},
               {"approval", "approval2"});
    WaitingRemembers(WaitingAgain(), Raises(), NewBinding());
    ServedSettles(s, "c", m, "approval2");
    DeniedBy(Serve(s, "c", m).db.approvals["approval2"].status, Attempt(WaitingAgain(), Raises()).conversation.intent);
  }

  lemma DeniedBy(status: ApprovalStatus, intent: Intent)
    requires SettledBy(status, intent) && intent.confirmation.Some? && intent.confirmation.value.decision == TravelPolicy.DENIED
    ensures status == ApprovalStatus.DENIED
  {
  }
}
