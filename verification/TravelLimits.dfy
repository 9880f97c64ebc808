/** What the conversation states do not promise, exactly: when a completed conversation reopens or forgets its
    receipt, and when a selected offer outlives the offers. Each failure is reached from a new conversation. */
module TravelLimits {
  import opened Common
  import opened AuditEvents
  import opened Calendar
  import opened TravelPolicy
  import opened TravelBot
  import opened TravelRuns

  // ---------- When a turn stops at the intent ----------

  /** The merged intent is doubted, incomplete, flies nowhere or has lapsed. */
  predicate Stops(current: Fields, p: Proposal, now: Instant) {
    var merged := Merged(current, p);
    p.ambiguous != {} || !Complete(merged) || SameAirports(merged) || Lapsed(merged, now)
  }

  predicate DoubtsMentioned(raw: Proposal) {
    exists f: Field :: f in raw.fields && f in raw.ambiguous
  }

  /** The same of a complete intent, in terms of what the model said. */
  predicate StopsKnown(current: Fields, raw: Proposal, now: Instant) {
    DoubtsMentioned(raw) || SameAirports(Merged(current, raw)) || Lapsed(Merged(current, raw), now)
  }

  lemma StopsExactly(current: Intent, p: Proposal, now: Instant)
    ensures var a := Apply(current, p, now);
      && (a.invalid != {} || !Complete(a.intent.fields) <==> Stops(current.fields, p, now))
      && (!Stops(current.fields, p, now) ==> a.intent.fields == Merged(current.fields, p))
  {
    hide Merged, Lapsed, SameAirports, Rejected;
    var merged := Merged(current.fields, p);
    NothingRejected(merged, now);
    if p.ambiguous == {} && Rejected(merged, now) == {} { assert p.ambiguous + Rejected(merged, now) == {}; }
    if Rejected(merged, now) != {} {
      var f :| f in Rejected(merged, now);
      assert f in p.ambiguous + Rejected(merged, now);
    }
    if p.ambiguous != {} {
      var f :| f in p.ambiguous;
      assert f in p.ambiguous + Rejected(merged, now);
    }
  }

  lemma KnownIntent(current: Fields, raw: Proposal, x: Extracted, now: Instant)
    requires Complete(current)
    ensures var p := WithConventions(current, raw, x);
      && Merged(current, p) == Merged(current, raw) && Changed(current, p) == Changed(current, raw)
      && (Stops(current, p, now) <==> StopsKnown(current, raw, now))
      && p.confirmation == raw.confirmation && p.action == raw.action
  {
    hide WithConventions, Lapsed, SameAirports;
    var p := WithConventions(current, raw, x);
    ConventionsOnComplete(current, raw, x);
    assert p.action == raw.action by { ConventionsKeepAction(current, raw, x); }
    assert forall f: Field :: Taken(p, f) <==> Taken(raw, f);
    assert Merged(current, p) == Merged(current, raw);
    assert Changed(current, p) == Changed(current, raw);
    if p.ambiguous == {} {
      forall f: Field | f in raw.fields ensures f !in raw.ambiguous { assert f !in p.ambiguous; }
    } else {
      var f :| f in p.ambiguous;
      assert f in raw.fields && f in raw.ambiguous;
    }
  }

  lemma ConventionsKeepAction(current: Fields, raw: Proposal, x: Extracted)
    ensures WithConventions(current, raw, x).action == raw.action
  {
  }

  // ---------- Completed conversations ----------

  predicate Reads(raw: Proposal) {
    raw.action in {GET_RECEIPT, GET_AUDIT_TIMELINE}
  }

  lemma CompletedTurn(c: Conversation, env: Env, raw: Proposal)
    requires c.state == COMPLETED && Complete(c.intent.fields) && c.intent.selectedOffer.Some?
    requires env.runtime == Proposed(raw) && env.persists
    ensures var stops, changed := StopsKnown(c.intent.fields, raw, env.now), Changed(c.intent.fields, raw) != {};
      var c' := Turn(CONFIGURED, c, env).conversation;
      && (c'.state == COMPLETED <==> !stops)
      && c'.intent.selectedOffer == c.intent.selectedOffer
      && (if !stops && Reads(raw) && !env.reading then c' == c
          else c'.operation == (if changed then EMPTY_OPERATION else c.operation) && c'.offers == (if changed then [] else c.offers))
  {
    hide WithConventions, Merged, Changed, Lapsed, SameAirports, Rejected, Stops, StopsKnown;
    KnownIntent(c.intent.fields, raw, env.extracted, env.now);
    StopsExactly(c.intent, WithConventions(c.intent.fields, raw, env.extracted), env.now);
  }

  lemma QuietTurn(c: Conversation, env: Env)
    requires !env.persists || !env.runtime.Proposed?
    ensures Turn(CONFIGURED, c, env).conversation == c
  {
    hide WithConventions, Apply, Complete, CheckoutGuard, ActivateGuard, PurchaseTool, Matches;
  }

  /** For every reachable completed conversation and every turn: it stays completed exactly unless a turn is
      stored whose proposal doubts something it mentions, makes the airports equal, or meets a date that has
      lapsed; it keeps its operation, receipt and all, exactly unless a turn is stored that changes a field
      (and is not the failed reading of a receipt). */
  lemma CompletedStaysExactly(envs: seq<Env>, env: Env)
    requires RunTurns(CREATED, envs).conversation.state == COMPLETED
    ensures var c := RunTurns(CREATED, envs).conversation;
      var c' := Turn(CONFIGURED, c, env).conversation;
      var stored := env.persists && env.runtime.Proposed?;
      && (c'.state == COMPLETED <==> !(stored && StopsKnown(c.intent.fields, env.runtime.proposal, env.now)))
      && (c'.operation == c.operation <==>
           || c.operation == EMPTY_OPERATION
           || !(stored && Changed(c.intent.fields, env.runtime.proposal) != {}
                && (StopsKnown(c.intent.fields, env.runtime.proposal, env.now) || !Reads(env.runtime.proposal) || env.reading)))
  {
    hide StopsKnown, Changed, Turn, RunTurns;
    CreatedInv();
    RunKeeps(CREATED, envs);
    var c := RunTurns(CREATED, envs).conversation;
    if env.persists && env.runtime.Proposed? {
      CompletedTurn(c, env, env.runtime.proposal);
    } else {
      QuietTurn(c, env);
    }
  }

  /** So it keeps both its state and its receipt exactly when the proposal only repeats what is known and the
      date is still ahead. */
  lemma ReceiptKeptExactly(envs: seq<Env>, env: Env)
    requires var c := RunTurns(CREATED, envs).conversation; c.state == COMPLETED && c.operation != EMPTY_OPERATION
    requires env.persists && env.reading && env.runtime.Proposed?
    ensures var c := RunTurns(CREATED, envs).conversation;
      var c' := Turn(CONFIGURED, c, env).conversation;
      c'.state == COMPLETED && c'.operation == c.operation <==>
        Repeats(c.intent.fields, env.runtime.proposal) && !Lapsed(c.intent.fields, env.now)
  {
    hide Turn, RunTurns, WithConventions, Merged, Changed, Lapsed, SameAirports, Rejected, Repeats, Stops, StopsKnown;
    CompletedStaysExactly(envs, env);
    CreatedInv();
    RunKeeps(CREATED, envs);
    var c, raw := RunTurns(CREATED, envs).conversation, env.runtime.proposal;
    var p := WithConventions(c.intent.fields, raw, env.extracted);
    KnownIntent(c.intent.fields, raw, env.extracted, env.now);
    StopsExactly(c.intent, p, env.now);
    PassesUntouched(c.intent, raw, env.extracted, env.now);
    UnchangedMerge(c.intent.fields, raw);
  }

  // ---------- Selected offers that outlive the offers ----------

  predicate StaleSelection(c: Conversation) {
    c.offers == [] && c.intent.selectedOffer.Some?
  }

  /** For every reachable waiting conversation: a stored turn leaves a selected offer without offers exactly when
      something changed without doubt and the turn stops at the intent all the same. */
  lemma SelectionOutlivesOffersExactly(envs: seq<Env>, env: Env)
    requires RunTurns(CREATED, envs).conversation.state == AWAITING_AUTHORITY_CONFIRMATION
    ensures var c := RunTurns(CREATED, envs).conversation;
      StaleSelection(Turn(CONFIGURED, c, env).conversation) <==>
        && env.persists && env.runtime.Proposed?
        && Changed(c.intent.fields, env.runtime.proposal) != {} && StopsKnown(c.intent.fields, env.runtime.proposal, env.now)
  {
    hide StopsKnown, Changed, Turn, RunTurns, BoundTo;
    CreatedInv();
    RunKeeps(CREATED, envs);
    var s := RunTurns(CREATED, envs);
    var b := LastPersisted(s.trace).value;
    BoundParts(s.conversation, b);
    BoundOffers(s.conversation, b);
    if env.persists && env.runtime.Proposed? {
      WaitingTurn(s.conversation, env, env.runtime.proposal);
    } else {
      QuietTurn(s.conversation, env);
    }
  }

  lemma BoundOffers(c: Conversation, b: Binding)
    requires BoundTo(c, b)
    ensures c.offers == [b.offer] && Complete(c.intent.fields) && c.operation.pending.Some?
  {
  }

  lemma WaitingTurn(c: Conversation, env: Env, raw: Proposal)
    requires c.state == AWAITING_AUTHORITY_CONFIRMATION && Complete(c.intent.fields)
    requires c.intent.selectedOffer.Some? && c.offers != []
    requires env.runtime == Proposed(raw) && env.persists
    ensures StaleSelection(Turn(CONFIGURED, c, env).conversation) <==>
      Changed(c.intent.fields, raw) != {} && StopsKnown(c.intent.fields, raw, env.now)
  {
    hide WithConventions, Merged, Changed, Lapsed, SameAirports, Rejected, Stops, StopsKnown, ActivateGuard, PurchaseTool;
    KnownIntent(c.intent.fields, raw, env.extracted, env.now);
    StopsExactly(c.intent, WithConventions(c.intent.fields, raw, env.extracted), env.now);
  }

  predicate SomeFit(fields: Fields, offers: seq<Offer>)
    requires Complete(fields)
  {
    exists o :: o in offers && Matches(fields, o)
  }

  /** Whether a stored turn of a conversation that is neither waiting nor completed leaves one: stopped at the
      intent it keeps the selection and drops the offers if something changed; it searches otherwise, and a
      search that finds nothing drops the offers alone. */
  predicate SearchLeavesStale(c: Conversation, env: Env, p: Proposal) {
    var merged := Merged(c.intent.fields, p);
    if Stops(c.intent.fields, p, env.now) then
      c.intent.selectedOffer.Some? && (Changed(c.intent.fields, p) != {} || c.offers == [])
    else if env.search.None? then StaleSelection(c)
    else if !SomeFit(merged, env.search.value) then c.intent.selectedOffer.Some?
    else (env.checkout.None? || env.mandateId.None? || env.preparation == PreparationThrows) && StaleSelection(c)
  }

  lemma SearchStale(c: Conversation, env: Env, intent: Intent, operation: Operation)
    requires Complete(intent.fields) && intent.selectedOffer == c.intent.selectedOffer && env.persists
    ensures StaleSelection(Searches(CONFIGURED, c, env, intent, operation).conversation) <==>
      if env.search.None? then StaleSelection(c)
      else if !SomeFit(intent.fields, env.search.value) then c.intent.selectedOffer.Some?
      else (env.checkout.None? || env.mandateId.None? || env.preparation == PreparationThrows) && StaleSelection(c)
  {
    hide Matches;
    if env.search.Some? {
      var offers := Filter(env.search.value, (o: Offer) => Matches(intent.fields, o));
      if o :| o in env.search.value && Matches(intent.fields, o) { assert o in offers; }
      if offers != [] {
        assert offers[0] in offers;
        assert SomeFit(intent.fields, env.search.value);
      }
    }
  }

  /** The same for every other reachable state, so that every stored turn of every conversation is accounted for. */
  lemma SelectionOutlivesOffersElsewhere(envs: seq<Env>, env: Env)
    requires RunTurns(CREATED, envs).conversation.state != AWAITING_AUTHORITY_CONFIRMATION
    ensures var c := RunTurns(CREATED, envs).conversation;
      StaleSelection(Turn(CONFIGURED, c, env).conversation) <==>
        if !env.persists || !env.runtime.Proposed? then StaleSelection(c)
        else
          var raw := env.runtime.proposal;
          if c.state == COMPLETED then
            || c.offers == []
            || (Changed(c.intent.fields, raw) != {}
                && (StopsKnown(c.intent.fields, raw, env.now) || !Reads(raw) || env.reading))
          else SearchLeavesStale(c, env, WithConventions(c.intent.fields, raw, env.extracted))
  {
    hide StopsKnown, Changed, Turn, RunTurns, SearchLeavesStale, WithConventions;
    CreatedInv();
    RunKeeps(CREATED, envs);
    var c := RunTurns(CREATED, envs).conversation;
    if !env.persists || !env.runtime.Proposed? {
      QuietTurn(c, env);
    } else if c.state == COMPLETED {
      CompletedTurn(c, env, env.runtime.proposal);
    } else {
      SearchingTurn(c, env, env.runtime.proposal);
    }
  }

  lemma SearchingTurn(c: Conversation, env: Env, raw: Proposal)
    requires c.state in {COLLECTING, READY_TO_SEARCH, FAILED} && env.runtime == Proposed(raw) && env.persists
    ensures StaleSelection(Turn(CONFIGURED, c, env).conversation) <==>
      SearchLeavesStale(c, env, WithConventions(c.intent.fields, raw, env.extracted))
  {
    hide WithConventions, Merged, Changed, Lapsed, SameAirports, Rejected, Stops, Searches, SomeFit;
    var p := WithConventions(c.intent.fields, raw, env.extracted);
    var a := Apply(c.intent, p, env.now);
    StopsExactly(c.intent, p, env.now);
    if !Stops(c.intent.fields, p, env.now) {
      SearchStale(c, env, WorkingIntent(c, a), if a.invalidatesDownstream then EMPTY_OPERATION else c.operation);
    }
  }

  // ---------- Each failure, from a new conversation ----------

  const DEPARTS := Civil(2030, 6, 1)

  /** Noon of a day. */
  function Noon(c: Civil): Instant
    requires 1 <= c.month <= 12
  {
    DayNumber(c) * MS_PER_DAY + MS_PER_DAY / 2
  }

  function TripFields(): Fields {
    map[ORIGIN := Airport("GRU"), DESTINATION := Airport("GIG"), DEPARTURE := Leaves(OnDay(DEPARTS)), BUDGET := AtMost(Money(100, "USD"))]
  }

  /** The trip with the party and cabin a new conversation starts from. */
  function KnownTrip(): (f: Fields)
    ensures Complete(f)
  {
    var f: Fields := map[ORIGIN := Airport("GRU"), DESTINATION := Airport("GIG"), DEPARTURE := Leaves(OnDay(DEPARTS)),
                         PASSENGERS := Travellers(1), CABIN := Seat(ECONOMY), BUDGET := AtMost(Money(100, "USD"))];
    SixFields(f);
    f
  }

  lemma SixFields(f: Fields)
    requires ORIGIN in f && DESTINATION in f && DEPARTURE in f && PASSENGERS in f && CABIN in f && BUDGET in f
    ensures Complete(f)
  {
    forall g: Field ensures g in f { assert FIELDS[Place(g)] == g; }
  }

  function Found(): Offer { Offer("offer", "shop", "GRU", "GIG", DEPARTS, 0, ECONOMY, Money(100, "USD")) }

  function Sold(): Checkout { Checkout("c", "hash", "shop", Money(100, "USD")) }

  /** Ports that all answer well; the model says `raw` on day `today`. */
  function Says(raw: Proposal, today: Civil): (env: Env)
    requires 1 <= today.month <= 12
    ensures env.runtime == Proposed(raw) && env.persists && env.reading && env.now == Noon(today)
  {
    Env(Proposed(raw), Extracted(None, None, None, None), Noon(today), Some([Found()]), Some(Sold()), Some("m"), Prepared,
        "approval", true, true, PurchaseAnswers(Some(Sold()), true, Some(Some("a")), Some(APPROVED), Some(Some("receipt"))),
        true, true, (id: Id) => 0)
  }

  /** On 1 January 2030 the traveller names a trip, then confirms. */
  function Asks(): Env { Says(Proposal(TripFields(), {}, None, None, FIND_OFFERS), Civil(2030, 1, 1)) }

  function Confirmed(): Env { Says(Proposal(map[], {}, None, Some(CONFIRM), REQUEST_PURCHASE), Civil(2030, 1, 1)) }

  /** A year later the traveller says hello. */
  function Greets(): Env { Says(Proposal(map[], {}, None, None, NONE), Civil(2031, 1, 1)) }

  function Raised(): Proposal { Proposal(map[BUDGET := AtMost(Money(200, "USD"))], {}, None, None, NONE) }

  function Raises(): (env: Env)
    ensures env.runtime == Proposed(Raised()) && env.persists && env.reading && env.now == Noon(Civil(2030, 1, 1))
  {
    Says(Raised(), Civil(2030, 1, 1))
  }

  function Home(): Proposal { Proposal(map[DESTINATION := Airport("GRU")], {}, None, None, NONE) }

  function GoesHome(): (env: Env)
    ensures env.runtime == Proposed(Home()) && env.persists && env.reading && env.now == Noon(Civil(2030, 1, 1))
  {
    Says(Home(), Civil(2030, 1, 1))
  }

  function Pending(): Approval { Approval("approval", "shop", "hash", Money(100, "USD"), "m") }

  function Waiting(): Conversation {
    Conversation(AWAITING_AUTHORITY_CONFIRMATION, Intent(KnownTrip(), Some("offer"), None), [Found()],
      Operation(Some("c"), Some("hash"), Some("m"), None, None, Some(Pending())))
  }

  function Bought(): Conversation {
    Conversation(COMPLETED, Intent(KnownTrip(), Some("offer"), Confirm(Pending(), CONFIRMED)), [Found()],
      Operation(Some("c"), Some("hash"), Some("m"), Some("a"), Some("receipt"), None))
  }

  lemma AheadInJanuary()
    ensures !Lapsed(KnownTrip(), Noon(Civil(2030, 1, 1))) && Lapsed(KnownTrip(), Noon(Civil(2031, 1, 1)))
    ensures Today(Noon(Civil(2030, 1, 1))) == Civil(2030, 1, 1)
  {
    hide DayNumber, Today, DepartureAccepted;
    NoonOf(Civil(2030, 1, 1));
    NoonOf(Civil(2031, 1, 1));
    AcceptedExactly(OnDay(DEPARTS), Noon(Civil(2030, 1, 1)));
    AcceptedExactly(OnDay(DEPARTS), Noon(Civil(2031, 1, 1)));
  }

  lemma AskedFor()
    ensures var p := WithConventions(CREATED_BODY.intent.fields, Asks().runtime.proposal, Asks().extracted);
      && p == Asks().runtime.proposal && Merged(CREATED_BODY.intent.fields, p) == KnownTrip()
  {
    hide Noon;
    var p := WithConventions(CREATED_BODY.intent.fields, Asks().runtime.proposal, Asks().extracted);
    assert p.fields == TripFields();
    assert p.ambiguous == {};
    assert Merged(CREATED_BODY.intent.fields, p) == KnownTrip();
  }

  /** A new conversation is waiting after one message, and completed after two. */
  lemma WaitsThenBuys()
    ensures RunTurns(CREATED, [Asks()]).conversation == Waiting()
    ensures RunTurns(CREATED, [Asks(), Confirmed()]).conversation == Bought()
  {
    AskingTurn();
    ConfirmingTurn();
    TwoTurns(Asks(), Confirmed());
  }

  lemma TwoTurns(a: Env, b: Env)
    ensures RunTurns(CREATED, [a]).conversation == Turn(CONFIGURED, CREATED_BODY, a).conversation
    ensures RunTurns(CREATED, [a, b]).conversation
         == Turn(CONFIGURED, Turn(CONFIGURED, CREATED_BODY, a).conversation, b).conversation
  {
    hide Turn;
    assert [a][1..] == [] && [a, b][1..] == [b] && [b][1..] == [];
    var r := Turn(CONFIGURED, CREATED_BODY, a);
    var s := Session(r.conversation, [] + r.events);
    assert RunTurns(CREATED, [a]) == RunTurns(s, []) == s;
    assert RunTurns(CREATED, [a, b]) == RunTurns(s, [b]);
    var t := Turn(CONFIGURED, s.conversation, b);
    assert RunTurns(s, [b]) == RunTurns(Session(t.conversation, s.trace + t.events), []);
  }

  /** A message that does not stop at the intent of a collecting conversation searches with it. */
  lemma SearchingMessage(c: Conversation, env: Env, raw: Proposal, p: Proposal)
    requires c.state == COLLECTING && c.intent.selectedOffer.None? && env.runtime == Proposed(raw)
    requires p == WithConventions(c.intent.fields, raw, env.extracted) && !Stops(c.intent.fields, p, env.now)
    ensures Complete(Merged(c.intent.fields, p))
    ensures Turn(CONFIGURED, c, env)
         == Searches(CONFIGURED, c, env, Intent(Merged(c.intent.fields, p), None, c.intent.confirmation), c.operation)
  {
    StopsExactly(c.intent, p, env.now);
    hide WithConventions, Merged, Lapsed, SameAirports, Rejected, Searches, Changed;
  }

  lemma AskingTurn()
    ensures Turn(CONFIGURED, CREATED_BODY, Asks()).conversation == Waiting()
  {
    hide Noon, WithConventions, Merged, Lapsed, Stops, Searches, Turn, Asks, KnownTrip, Waiting;
    AheadInJanuary();
    AskedFor();
    AsksPlainly();
    StopsNot(CREATED_BODY.intent.fields, Asks().runtime.proposal, Asks().now);
    SearchingMessage(CREATED_BODY, Asks(), Asks().runtime.proposal, Asks().runtime.proposal);
    AskingSearch();
  }

  lemma AsksPlainly()
    ensures var env := Asks();
      && env.runtime.Proposed? && env.now == Noon(Civil(2030, 1, 1))
      && env.runtime.proposal.ambiguous == {} && env.runtime.proposal.selectedOffer == None
  {
    hide Noon;
  }

  lemma StopsNot(current: Fields, p: Proposal, now: Instant)
    requires p.ambiguous == {} && Merged(current, p) == KnownTrip() && !Lapsed(KnownTrip(), now)
    ensures !Stops(current, p, now)
  {
    hide Lapsed, Merged;
    assert "GRU" != "GIG" by { assert "GRU"[1] != "GIG"[1]; }
  }

  lemma AskingSearch()
    ensures Searches(CONFIGURED, CREATED_BODY, Asks(), Intent(KnownTrip(), None, None), EMPTY_OPERATION).conversation == Waiting()
  {
    hide Noon;
    assert Matches(KnownTrip(), Found());
    var offers := Filter([Found()], (o: Offer) => Matches(KnownTrip(), o));
    assert Found() in offers && |offers| <= 1;
    assert offers == [Found()];
  }

  /** A confirmation that changes and doubts nothing reaches the confirming branch with the intent it met. */
  lemma ConfirmingMessage(c: Conversation, env: Env, raw: Proposal)
    requires c.state == AWAITING_AUTHORITY_CONFIRMATION && Complete(c.intent.fields) && c.operation.pending.Some?
    requires env.runtime == Proposed(raw) && raw.confirmation == Some(CONFIRM)
    requires Repeats(c.intent.fields, raw) && !SameAirports(c.intent.fields) && !Lapsed(c.intent.fields, env.now)
    ensures Turn(CONFIGURED, c, env)
         == Confirms(CONFIGURED, c, env, c.intent, c.offers, c.operation, c.operation.pending.value)
  {
    hide WithConventions, Merged, Changed, Lapsed, SameAirports, Rejected, Confirms, Repeats;
    ConventionsOnComplete(c.intent.fields, raw, env.extracted);
    PassesUntouched(c.intent, raw, env.extracted, env.now);
    var a := Apply(c.intent, WithConventions(c.intent.fields, raw, env.extracted), env.now);
    assert Untouched(c.intent, a);
    assert WorkingIntent(c, a) == c.intent;
  }

  lemma ConfirmingTurn()
    ensures Turn(CONFIGURED, Waiting(), Confirmed()).conversation == Bought()
  {
    hide Noon, Lapsed, SameAirports, Turn, Confirms, KnownTrip, Confirmed, Bought;
    AheadInJanuary();
    TripAirports();
    ConfirmsPlainly();
    ConfirmingMessage(Waiting(), Confirmed(), Confirmed().runtime.proposal);
    ConfirmingBranch();
  }

  lemma ConfirmsPlainly()
    ensures var env := Confirmed();
      && env.runtime.Proposed? && env.now == Noon(Civil(2030, 1, 1))
      && env.runtime.proposal.confirmation == Some(CONFIRM) && env.runtime.proposal.fields == map[]
  {
    hide Noon;
  }

  lemma TripAirports()
    ensures !SameAirports(KnownTrip())
  {
    assert "GRU"[1] != "GIG"[1];
  }

  lemma ConfirmingBranch()
    ensures Confirms(CONFIGURED, Waiting(), Confirmed(), Waiting().intent, Waiting().offers, Waiting().operation, Pending()).conversation
         == Bought()
  {
    hide Noon;
    assert FindOffer([Found()], Some("offer")).Some?;
  }

  /** A year later a greeting is enough to reopen a completed conversation. */
  lemma GreetingReopens()
    ensures var c := RunTurns(CREATED, [Asks(), Confirmed()]).conversation;
      c.state == COMPLETED && Turn(CONFIGURED, c, Greets()).conversation.state == COLLECTING
  {
    hide Noon, Lapsed, Changed, RunTurns, Turn, Merged;
    WaitsThenBuys();
    AheadInJanuary();
    NothingMerged(KnownTrip(), Greets().runtime.proposal);
    CompletedStaysExactly([Asks(), Confirmed()], Greets());
    LeavesOnlyToCollect(Bought(), Greets());
  }

  lemma NothingMerged(current: Fields, raw: Proposal)
    requires raw.fields == map[]
    ensures Merged(current, raw) == current
  {
  }

  lemma LeavesOnlyToCollect(c: Conversation, env: Env)
    requires c.state == COMPLETED && Complete(c.intent.fields)
    ensures Turn(CONFIGURED, c, env).conversation.state in {COMPLETED, COLLECTING}
  {
    hide WithConventions, Apply, Matches;
  }

  lemma RaisedBudget(now: Instant)
    requires !Lapsed(KnownTrip(), now)
    ensures Changed(KnownTrip(), Raised()) != {} && !StopsKnown(KnownTrip(), Raised(), now)
  {
    hide DepartureAccepted;
    assert BUDGET in Changed(KnownTrip(), Raised());
    assert Merged(KnownTrip(), Raised())[DEPARTURE] == KnownTrip()[DEPARTURE];
    assert "GRU"[1] != "GIG"[1];
  }

  lemma HomeBound(now: Instant)
    ensures Changed(KnownTrip(), Home()) != {} && StopsKnown(KnownTrip(), Home(), now)
  {
    hide DepartureAccepted, Lapsed;
    assert "GRU"[1] != "GIG"[1];
    assert DESTINATION in Changed(KnownTrip(), Home());
    assert SameAirports(Merged(KnownTrip(), Home()));
  }

  /** A changed budget makes it forget its receipt while it stays completed. */
  lemma NewBudgetForgetsReceipt()
    ensures var c := RunTurns(CREATED, [Asks(), Confirmed()]).conversation;
      var c' := Turn(CONFIGURED, c, Raises()).conversation;
      c.operation.receiptId == Some("receipt") && c'.state == COMPLETED && c'.operation == EMPTY_OPERATION
  {
    hide Noon, RunTurns, Turn, Lapsed, StopsKnown, Changed, KnownTrip, Raises, Raised, Asks, Confirmed;
    WaitsThenBuys();
    AheadInJanuary();
    RaisedBudget(Noon(Civil(2030, 1, 1)));
    CompletedTurn(Bought(), Raises(), Raised());
  }

  /** While it waits, a destination equal to the origin leaves the selected offer and drops the offers. */
  lemma RoundTripLeavesSelection()
    ensures var c := RunTurns(CREATED, [Asks()]).conversation;
      c.state == AWAITING_AUTHORITY_CONFIRMATION && StaleSelection(Turn(CONFIGURED, c, GoesHome()).conversation)
  {
    hide Noon, RunTurns, Turn, Lapsed, StopsKnown, Changed, KnownTrip, GoesHome, Home, Asks, Confirmed;
    WaitsThenBuys();
    HomeBound(Noon(Civil(2030, 1, 1)));
    WaitingTurn(Waiting(), GoesHome(), Home());
  }
}
