/** The conversation service over the transactional repository: exactly which messages of a waiting
    conversation fail because its approval is written a second time, and runs that reach it. */
module ServiceOverPostgres {
  import opened Common
  import opened TravelPolicy
  import opened TravelRuns
  import opened TravelLimits
  import opened TurnProtocol
  import opened TurnInvariant
  import opened TurnRefinement
  import Calendar
  import T = TravelBot

  /** What the service hands to `completeTurn`. */
  function FinishedAs(next: T.Conversation, transitions: nat): Finished {
    Finished(next.state, next.intent, next.offers, Some(next.operation), transitions)
  }

  /** The turn up to its `completeTurn`. */
  function Attempt(c: T.Conversation, env: T.Env): T.TurnResult {
    T.Turn(CONFIGURED, c, env.(persists := true))
  }

  /** What a message may say to a waiting conversation that leaves it with the approval it already has. */
  predicate KeepsApproval(c: T.Conversation, env: T.Env) {
    || env.runtime.InvalidOutput?
    || (env.runtime.Proposed?
        && var raw := env.runtime.proposal;
        && Changed(c.intent.fields, raw) == {}
        && (raw.confirmation.None? || DoubtsMentioned(raw) || Lapsed(c.intent.fields, env.now)))
  }

  /** A message that changes nothing: whether the waiting conversation is stored with the approval it has. */
  lemma UnchangedAttempt(c: T.Conversation, env: T.Env, b: T.Binding)
    requires c.state == T.AWAITING_AUTHORITY_CONFIRMATION && BoundTo(c, b)
    requires env.runtime.Proposed? && Changed(c.intent.fields, env.runtime.proposal) == {}
    ensures var r := Attempt(c, env);
      && (KeepsApproval(c, env) ==> r.completed && r.conversation.operation == c.operation)
      && (r.completed && !KeepsApproval(c, env) ==> r.conversation.operation.pending.None?)
  {
    hide WithConventions, Merged, Changed, Lapsed, SameAirports, Rejected, Stops, T.ActivateGuard, T.PurchaseTool, BoundTo, DoubtsMentioned;
    BoundParts(c, b);
    var raw := env.runtime.proposal;
    KnownIntent(c.intent.fields, raw, env.extracted, env.now);
    StopsExactly(c.intent, WithConventions(c.intent.fields, raw, env.extracted), env.now);
    UnchangedMerge(c.intent.fields, raw);
    assert raw.confirmation.Some? ==> raw.confirmation.value.CONFIRM? || raw.confirmation.value.DENY?;
  }

  /** A message that changes something never stores the approval it found. */
  lemma ChangedAttempt(c: T.Conversation, env: T.Env, b: T.Binding)
    requires c.state == T.AWAITING_AUTHORITY_CONFIRMATION && BoundTo(c, b)
    requires env.runtime.Proposed? && Changed(c.intent.fields, env.runtime.proposal) != {}
    ensures Attempt(c, env).completed ==> Attempt(c, env).conversation.operation.pending.None?
  {
    hide WithConventions, Merged, Changed, Lapsed, SameAirports, Rejected, Stops, T.ActivateGuard, T.PurchaseTool, BoundTo, DoubtsMentioned;
    BoundParts(c, b);
    KnownIntent(c.intent.fields, env.runtime.proposal, env.extracted, env.now);
  }

  lemma WaitingAttempt(c: T.Conversation, env: T.Env, b: T.Binding)
    requires c.state == T.AWAITING_AUTHORITY_CONFIRMATION && BoundTo(c, b)
    ensures var r := Attempt(c, env);
      && (KeepsApproval(c, env) ==> r.completed && r.conversation.operation == c.operation)
      && (r.completed && !KeepsApproval(c, env) ==> r.conversation.operation.pending.None?)
  {
    hide Changed, Lapsed, BoundTo, DoubtsMentioned;
    if env.runtime.Proposed? {
      hide Attempt;
      if Changed(c.intent.fields, env.runtime.proposal) == {} { UnchangedAttempt(c, env, b); }
      else { ChangedAttempt(c, env, b); }
    }
  }

  lemma CompletesActive(db: Pg, drawn: set<Id>, id: Id, runId: Id, f: Finished)
    requires PgInv(db, drawn) && id in db.conversations && db.conversations[id].active == Some(runId)
    ensures PgComplete(db, runId, f).0 == DuplicateApproval <==>
      f.operation.Some? && f.operation.value.pending.Some? && f.operation.value.pending.value.approvalId in db.approvals
    ensures PgComplete(db, runId, f).0 == DuplicateApproval ==> PgComplete(db, runId, f).1 == db
    ensures PgComplete(db, runId, f).0 == DuplicateApproval || PgComplete(db, runId, f).0.Completed?
  {
    hide PgInv, RowOk, UniqueRuns, ApprovalsOk, FinishedRow, ViewOf;
    InvAt(db, drawn, id);
    assert ConversationOk(db, id);
    var k :| RunOf(db.runs, id, runId, k);
    assert RunOk(db, k) && IsRun(db.runs, k, runId);
    forall j | IsRun(db.runs, j, runId) ensures j == k {
      if j != k { OtherRun(db.runs, drawn, j, k); }
    }
    assert PgComplete(db, runId, f) == PgCompleteRun(db, k, f);
  }

  /** Over PostgreSQL, for every reachable waiting conversation and every message: the turn reaches its
      completion and fails there, writing nothing, exactly when the model's output is invalid, or it changes
      nothing and does not decide, or it changes nothing and doubts something it mentions, or the date has
      lapsed. Every other turn that reaches its completion is stored. */
  lemma WaitingTurnFailsExactly(envs: seq<T.Env>, env: T.Env, s: PgSystem, id: Id, runId: Id, transitions: nat)
    requires RunTurns(CREATED, envs).conversation.state == T.AWAITING_AUTHORITY_CONFIRMATION
    requires PgInv(s.db, s.drawn) && id in s.db.conversations && s.db.conversations[id].active == Some(runId)
    requires ViewOf(s.db.approvals, id, s.db.conversations[id]).body == RunTurns(CREATED, envs).conversation
    ensures var c := RunTurns(CREATED, envs).conversation;
      var r := Attempt(c, env);
      var (o, db') := PgComplete(s.db, runId, FinishedAs(r.conversation, transitions));
      && (r.completed && o == DuplicateApproval <==> KeepsApproval(c, env))
      && (o == DuplicateApproval ==> db' == s.db)
      && (r.completed && !KeepsApproval(c, env) ==> o.Completed?)
  {
    hide PgInv, RunTurns, TurnInv, BoundTo, KeepsApproval, Attempt, PgComplete;
    CreatedInv();
    TravelRuns.RunKeeps(CREATED, envs);
    var session := RunTurns(CREATED, envs);
    WaitingIsBound(session.conversation, LastPersisted(session.trace));
    var b := LastPersisted(session.trace).value;
    BoundParts(session.conversation, b);
    WaitingAttempt(session.conversation, env, b);
    CompletesActive(s.db, s.drawn, id, runId, FinishedAs(Attempt(session.conversation, env).conversation, transitions));
    PendingIsWritten(s.db, s.drawn, id);
  }

  lemma PendingIsWritten(db: Pg, drawn: set<Id>, id: Id)
    requires PgInv(db, drawn) && PendingOf(db.approvals, id).Some?
    ensures PendingOf(db.approvals, id).value.approvalId in db.approvals
  {
    hide RunOk, ConversationOk, UniqueRuns;
    InvAt(db, drawn, id);
    var a :| IsPending(db.approvals, id, a) && db.approvals[a].approval == PendingOf(db.approvals, id).value;
  }

  // ---------- Runs that reach the differences ----------

  /** The second message of a conversation that asked for a trip: a greeting the same day. */
  function SaysHello(): T.Env { Says(Proposal(map[], {}, None, None, NONE), Calendar.Civil(2030, 1, 1)) }

  function TwoMessages(): seq<Call> {
    [Create("c", "p"), Claim(Command("c", "k1", "h1"), 0, "r1"), Complete("r1", FinishedAs(Waiting(), 1)),
     Claim(Command("c", "k2", "h2"), 1, "r2"), Complete("r2", FinishedAs(Waiting(), 1))]
  }

  function SlowMessage(): seq<Call> {
    [Create("c", "p"), Claim(Command("c", "k1", "h1"), 0, "r1"), Claim(Command("c", "k1", "h1"), 30_000, "r2")]
  }

  lemma NothingChanged(fields: Fields, raw: Proposal)
    requires raw.fields == map[]
    ensures Changed(fields, raw) == {}
  {
  }

  /** A greeting leaves the waiting conversation as it is, for its caller to store again. */
  lemma HelloKeepsWaiting()
    ensures var c := RunTurns(CREATED, [Asks()]).conversation;
      c == Waiting() && KeepsApproval(c, SaysHello()) && Attempt(c, SaysHello()).completed
      && Attempt(c, SaysHello()).conversation.operation == Waiting().operation
  {
    hide RunTurns, T.Turn, Says, KnownTrip, Noon, BoundTo, Asks, TurnInv, Changed, Lapsed, DoubtsMentioned, Attempt;
    WaitsThenBuys();
    CreatedInv();
    TravelRuns.RunKeeps(CREATED, [Asks()]);
    var session := RunTurns(CREATED, [Asks()]);
    WaitingIsBound(session.conversation, LastPersisted(session.trace));
    NothingChanged(session.conversation.intent.fields, SaysHello().runtime.proposal);
    WaitingAttempt(session.conversation, SaysHello(), LastPersisted(session.trace).value);
  }

  /** Both repositories after some calls, with the claims still held. */
  datatype Pair = Pair(mem: Mem, pg: PgSystem, held: set<Id>)

  ghost function Step(p: Pair, call: Call): Pair {
    Pair(MemNext(p.mem, call).1, PgNext(p.pg, call).1, Held(p.held, call, PgNext(p.pg, call).0))
  }

  const NOTHING := Pair(EMPTY_MEM, EMPTY_PG, {})

  ghost function AfterClaim(): Pair { Step(Step(NOTHING, TwoMessages()[0]), TwoMessages()[1]) }

  ghost function AfterFirst(): Pair { Step(AfterClaim(), TwoMessages()[2]) }

  ghost function AfterSecondClaim(): Pair { Step(AfterFirst(), TwoMessages()[3]) }

  /** The tables once the first message is stored. */
  lemma FirstMessageStored()
    ensures var (o, s) := PgNext(AfterClaim().pg, TwoMessages()[2]);
      && s == AfterFirst().pg
      && o.Completed? && "c" in s.db.conversations && s.db.conversations["c"].active == None
      && s.db.approvals.Keys == {"approval"} && s.drawn == {"r1"}
      && s.db.inputs.Keys == {"k1"} && s.db.runs.Keys == {"k1"} && s.db.runs["k1"].runId == "r1"
    ensures var s := AfterClaim().pg; s.db.approvals == map[] && s.drawn == {"r1"}
  {
    hide Waiting, FinishedRow, ViewOf, PgPush, MemNext, Held;
    WaitingApproval();
    var s2 := AfterClaim().pg;
    assert IsRun(s2.db.runs, "k1", "r1");
    assert PgComplete(s2.db, "r1", FinishedAs(Waiting(), 1)) == PgCompleteRun(s2.db, "k1", FinishedAs(Waiting(), 1));
    FinishedIdle(s2.db.conversations["c"], FinishedAs(Waiting(), 1));
  }

  lemma NothingRefines()
    ensures Refines(NOTHING.mem, NOTHING.pg, NOTHING.held)
  {
    TurnInvariant.EmptyInv();
  }

  lemma StepKeepsRefining(p: Pair, call: Call)
    requires Refines(p.mem, p.pg, p.held) && Disciplined(p.pg, p.held, call)
    ensures Refines(Step(p, call).mem, Step(p, call).pg, Step(p, call).held)
  {
    StepRefines(p.mem, p.pg, p.held, call);
  }

  lemma FirstCallsRefine()
    ensures Refines(AfterClaim().mem, AfterClaim().pg, AfterClaim().held)
  {
    hide Refines, MemNext, Waiting;
    NothingRefines();
    StepKeepsRefining(NOTHING, TwoMessages()[0]);
    StepKeepsRefining(Step(NOTHING, TwoMessages()[0]), TwoMessages()[1]);
  }

  lemma SecondClaimRefines()
    ensures var p := AfterSecondClaim();
      && Refines(p.mem, p.pg, p.held) && "approval" in p.pg.db.approvals
      && "c" in p.pg.db.conversations && p.pg.db.conversations["c"].active == Some("r2")
  {
    hide Refines, MemNext, Waiting, AfterClaim, ViewOf, PgPush, Held;
    FirstCallsRefine();
    FirstMessageStored();
    WaitingApproval();
    StepKeepsRefining(AfterClaim(), TwoMessages()[2]);
    assert "k2" != "k1" && "r2" != "r1" by { assert "k2"[1] != "k1"[1] && "r2"[1] != "r1"[1]; }
    StepKeepsRefining(AfterFirst(), TwoMessages()[3]);
  }

  /** The second message finds its approval already written: PostgreSQL fails where memory completes. */
  lemma RepeatedApprovalFails()
    ensures PgOutcomes(EMPTY_PG, TwoMessages())[4] == DuplicateApproval
    ensures MemOutcomes(EMPTY_MEM, TwoMessages())[4].Completed?
  {
    hide Refines, MemNext, PgNext, Waiting, Held;
    SecondClaimRefines();
    OutcomesOfFive(TwoMessages());
    LastCallDiffers(AfterSecondClaim());
  }

  lemma LastCallDiffers(p: Pair)
    requires Refines(p.mem, p.pg, p.held) && "approval" in p.pg.db.approvals
    requires "c" in p.pg.db.conversations && p.pg.db.conversations["c"].active == Some("r2")
    ensures PgNext(p.pg, TwoMessages()[4]).0 == DuplicateApproval && MemNext(p.mem, TwoMessages()[4]).0.Completed?
  {
    hide PgInv, HeldActive, Waiting, PgComplete, MemComplete;
    WaitingApproval();
    CompletesActive(p.pg.db, p.pg.drawn, "c", "r2", FinishedAs(Waiting(), 1));
    AgreeAt(p.mem, p.pg.db, "c", "");
    ApprovalsExactly(p.mem, p.pg, p.held, "r2", FinishedAs(Waiting(), 1), "c");
  }

  lemma OutcomesOfFive(calls: seq<Call>)
    requires |calls| == 5
    ensures var p := Step(Step(Step(Step(NOTHING, calls[0]), calls[1]), calls[2]), calls[3]);
      && |PgOutcomes(EMPTY_PG, calls)| == 5 && |MemOutcomes(EMPTY_MEM, calls)| == 5
      && PgOutcomes(EMPTY_PG, calls)[4] == PgNext(p.pg, calls[4]).0
      && MemOutcomes(EMPTY_MEM, calls)[4] == MemNext(p.mem, calls[4]).0
  {
    hide PgNext, MemNext, Held;
    var p1 := Step(NOTHING, calls[0]);
    var p2 := Step(p1, calls[1]);
    var p3 := Step(p2, calls[2]);
    var p4 := Step(p3, calls[3]);
    assert calls[1..][1..] == calls[2..] && calls[2..][1..] == calls[3..] && calls[3..][1..] == calls[4..] && calls[4..][1..] == [];
    assert PgOutcomes(p4.pg, calls[4..]) == [PgNext(p4.pg, calls[4]).0];
    assert PgOutcomes(p3.pg, calls[3..])[1] == PgNext(p4.pg, calls[4]).0;
    assert PgOutcomes(p2.pg, calls[2..])[2] == PgNext(p4.pg, calls[4]).0;
    assert PgOutcomes(p1.pg, calls[1..])[3] == PgNext(p4.pg, calls[4]).0;
    assert MemOutcomes(p4.mem, calls[4..]) == [MemNext(p4.mem, calls[4]).0];
    assert MemOutcomes(p3.mem, calls[3..])[1] == MemNext(p4.mem, calls[4]).0;
    assert MemOutcomes(p2.mem, calls[2..])[2] == MemNext(p4.mem, calls[4]).0;
    assert MemOutcomes(p1.mem, calls[1..])[3] == MemNext(p4.mem, calls[4]).0;
  }

  /** Half a minute into its processing a repeated message is claimed again over PostgreSQL; in memory it is
      still in progress. */
  lemma LeaseHandsOutTwice()
    ensures PgOutcomes(EMPTY_PG, SlowMessage())[2].Claimed?
    ensures MemOutcomes(EMPTY_MEM, SlowMessage())[2] == InProgress
  {
    hide PgNext, MemNext;
    OutcomesOfThree(SlowMessage());
    PgClaimsAgain();
    MemStillRunning();
  }

  lemma PgClaimsAgain()
    ensures var s := PgNext(PgNext(EMPTY_PG, SlowMessage()[0]).1, SlowMessage()[1]).1;
      PgNext(s, SlowMessage()[2]).0.Claimed?
  {
    hide ViewOf, PgPush;
    assert "r2" != "r1" by { assert "r2"[1] != "r1"[1]; }
  }

  lemma MemStillRunning()
    ensures var m := MemNext(MemNext(EMPTY_MEM, SlowMessage()[0]).1, SlowMessage()[1]).1;
      MemNext(m, SlowMessage()[2]).0 == InProgress
  {
  }

  lemma OutcomesOfThree(calls: seq<Call>)
    requires |calls| == 3
    ensures |PgOutcomes(EMPTY_PG, calls)| == 3 && |MemOutcomes(EMPTY_MEM, calls)| == 3
    ensures PgOutcomes(EMPTY_PG, calls)[2] == PgNext(PgNext(PgNext(EMPTY_PG, calls[0]).1, calls[1]).1, calls[2]).0
    ensures MemOutcomes(EMPTY_MEM, calls)[2] == MemNext(MemNext(MemNext(EMPTY_MEM, calls[0]).1, calls[1]).1, calls[2]).0
  {
    hide PgNext, MemNext;
    var s1, m1 := PgNext(EMPTY_PG, calls[0]).1, MemNext(EMPTY_MEM, calls[0]).1;
    var s2, m2 := PgNext(s1, calls[1]).1, MemNext(m1, calls[1]).1;
    assert calls[1..][1..] == calls[2..] && calls[2..][1..] == [];
    assert PgOutcomes(s2, calls[2..]) == [PgNext(s2, calls[2]).0];
    assert PgOutcomes(s1, calls[1..])[1] == PgNext(s2, calls[2]).0;
    assert MemOutcomes(m2, calls[2..]) == [MemNext(m2, calls[2]).0];
    assert MemOutcomes(m1, calls[1..])[1] == MemNext(m2, calls[2]).0;
  }

  lemma WaitingApproval()
    ensures Waiting().operation.pending.Some? && Waiting().operation.pending.value.approvalId == "approval"
  {
  }

  lemma FinishedIdle(row: PgConversation, f: Finished)
    ensures FinishedRow(row, f).active == None
  {
  }
}
