/** Which offer a conversation ends up waiting on, on the offers' own columns; and what the tools' guards let pass
    (travelbot/service.ts, travelbot/application-tools.ts). */
module OfferChoice {
  import opened Common
  import opened Calendar
  import opened TravelPolicy
  import opened TravelBot
  import opened TravelRuns
  import opened TravelLimits

  /** The flight leaves on the day asked for, or in the month. */
  predicate LeavesThen(d: Departure, day: Civil) {
    match d
    case OnDay(date) => day == date
    case InMonth(year, month) => (day.year, day.month) == (year, month)
  }

  /** The offer flies the trip, in its cabin, and the whole party fits the budget. */
  predicate Fits(fields: Fields, o: Offer)
    requires Complete(fields)
  {
    && fields[ORIGIN] == Airport(o.origin) && fields[DESTINATION] == Airport(o.destination)
    && fields[CABIN] == Seat(o.cabin) && LeavesThen(fields[DEPARTURE].departure, o.departs)
    && fields[BUDGET].limit.currency == o.total.currency
    && fields[PASSENGERS].count * o.total.amount <= fields[BUDGET].limit.amount
  }

  /** No dearer, and if as dear no later, and if as late no later by name. */
  predicate AtLeastAsGood(collate: Id -> int, o: Offer, p: Offer) {
    && o.total.amount <= p.total.amount
    && (o.total.amount == p.total.amount ==>
         && o.departureTime <= p.departureTime
         && (o.departureTime == p.departureTime ==> collate(o.offerId) <= collate(p.offerId)))
  }

  lemma FitsExactly(fields: Fields, o: Offer)
    requires Complete(fields)
    ensures Fits(fields, o) <==> Matches(fields, o)
  {
    assert Suits(ORIGIN, fields[ORIGIN]) && Suits(DESTINATION, fields[DESTINATION]) && Suits(CABIN, fields[CABIN]);
    assert fields[PASSENGERS].count * o.total.amount == o.total.amount * fields[PASSENGERS].count;
  }

  lemma PrecedesExactly(collate: Id -> int, o: Offer, p: Offer)
    ensures AtLeastAsGood(collate, o, p) <==> !Precedes(collate, p, o)
  {
  }

  ghost predicate Chosen(env: Env, fields: Fields, o: Offer)
    requires Complete(fields)
  {
    && env.search.Some? && o in env.search.value && Fits(fields, o)
    && forall p :: p in env.search.value && Fits(fields, p) ==> AtLeastAsGood(env.collate, o, p)
  }

  ghost predicate NothingFits(env: Env, fields: Fields)
    requires Complete(fields)
  {
    env.search.Some? && forall p :: p in env.search.value ==> !Fits(fields, p)
  }

  /** The conversation that waits for authority over a checkout of this offer. */
  function WaitsFor(intent: Intent, o: Offer, checkout: Checkout, mandateId: Id, approvalId: Id): Conversation {
    Conversation(AWAITING_AUTHORITY_CONFIRMATION, intent.(selectedOffer := Some(o.offerId)), [o],
      Operation(Some(checkout.checkoutId), Some(checkout.checkoutHash), Some(mandateId), None, None,
                Some(Approval(approvalId, checkout.merchantId, checkout.checkoutHash, checkout.total, mandateId))))
  }

  /** What a turn leaves once this offer is taken, as checkout, authority and approval answered. */
  predicate TakenLeaves(c: Conversation, env: Env, intent: Intent, o: Offer, r: TurnResult) {
    if env.checkout.None? || env.mandateId.None? || env.preparation == PreparationThrows || !env.persists then
      !r.completed && r.conversation == c
    else if env.preparation == NotPrepared then
      r.completed && r.conversation ==
        Conversation(READY_TO_SEARCH, intent.(selectedOffer := None), [], Operation(None, None, None, None, None, None))
    else r.completed && r.conversation == WaitsFor(intent, o, env.checkout.value, env.mandateId.value, env.approvalId)
  }

  lemma TakenExactly(c: Conversation, env: Env, intent: Intent, o: Offer)
    requires Complete(intent.fields)
    ensures TakenLeaves(c, env, intent, o, PrepareApproval(c, env, intent, o))
  {
  }

  /** What a search leaves, given what was found and what checkout, authority and approval answered. */
  ghost predicate SearchLeaves(c: Conversation, env: Env, intent: Intent, operation: Operation, r: TurnResult)
    requires Complete(intent.fields)
  {
    if env.search.None? || !env.persists then !r.completed && r.conversation == c
    else if NothingFits(env, intent.fields) then
      r.completed && r.conversation == Conversation(READY_TO_SEARCH, intent, [], operation)
    else exists o :: Chosen(env, intent.fields, o) && TakenLeaves(c, env, intent, o, r)
  }

  lemma PreferredIsChosen(env: Env, fields: Fields)
    requires Complete(fields) && env.search.Some?
    ensures var offers := Filter(env.search.value, (o: Offer) => Matches(fields, o));
      && (offers == [] <==> NothingFits(env, fields))
      && (offers != [] ==> Chosen(env, fields, SelectPreferred(env.collate, offers)))
  {
    hide Matches, Precedes, Fits, AtLeastAsGood;
    var found := env.search.value;
    forall o ensures Fits(fields, o) <==> Matches(fields, o) { FitsExactly(fields, o); }
    var offers := Filter(found, (o: Offer) => Matches(fields, o));
    if offers == [] {
      forall p | p in found ensures !Fits(fields, p) { assert p !in offers; }
    } else {
      var o := SelectPreferred(env.collate, offers);
      assert o in offers;
      forall p | p in found && Fits(fields, p) ensures AtLeastAsGood(env.collate, o, p) {
        assert p in offers;
        PrecedesExactly(env.collate, o, p);
      }
    }
  }

  lemma UnstoredSearch(c: Conversation, env: Env, intent: Intent, operation: Operation)
    requires Complete(intent.fields) && !env.persists
    ensures var r := Searches(CONFIGURED, c, env, intent, operation); !r.completed && r.conversation == c
  {
    hide Matches, SelectPreferred, Filter;
  }

  lemma SearchExactly(c: Conversation, env: Env, intent: Intent, operation: Operation)
    requires Complete(intent.fields)
    ensures SearchLeaves(c, env, intent, operation, Searches(CONFIGURED, c, env, intent, operation))
  {
    hide Matches, Chosen, NothingFits, SelectPreferred, Filter, PrepareApproval, TakenLeaves;
    if env.search.Some? {
      PreferredIsChosen(env, intent.fields);
      var offers := Filter(env.search.value, (o: Offer) => Matches(intent.fields, o));
      if offers != [] { TakenExactly(c, env, intent, SelectPreferred(env.collate, offers)); }
      if !env.persists { UnstoredSearch(c, env, intent, operation); }
    }
  }

  /** Every message of every reachable conversation that is neither waiting nor completed: where it does not stop at
      the intent it searches with everything known, and ends as the answers say; an offer it then waits on is of the
      search, fits the trip, and none that fits is better. */
  lemma SearchingExactly(envs: seq<Env>, env: Env)
    requires var c := RunTurns(CREATED, envs).conversation;
      && c.state !in {AWAITING_AUTHORITY_CONFIRMATION, COMPLETED} && env.runtime.Proposed?
      && !Stops(c.intent.fields, WithConventions(c.intent.fields, env.runtime.proposal, env.extracted), env.now)
    ensures var c := RunTurns(CREATED, envs).conversation;
      var p := WithConventions(c.intent.fields, env.runtime.proposal, env.extracted);
      var dropped := Changed(c.intent.fields, p) != {} && c.intent.selectedOffer.Some?;
      && Complete(Merged(c.intent.fields, p))
      && SearchLeaves(c, env, c.intent.(fields := Merged(c.intent.fields, p)),
                      if dropped then Operation(None, None, None, None, None, None) else c.operation, Turn(CONFIGURED, c, env))
  {
    hide RunTurns, SearchLeaves, WithConventions, Stops, Merged, Changed, Turn;
    CreatedInv();
    RunKeeps(CREATED, envs);
    var s := RunTurns(CREATED, envs);
    NotSelecting(s.conversation, LastPersisted(s.trace));
    SearchingBranch(s.conversation, env);
  }

  lemma SearchingBranch(c: Conversation, env: Env)
    requires c.state !in {AWAITING_AUTHORITY_CONFIRMATION, COMPLETED, AWAITING_OFFER_SELECTION} && env.runtime.Proposed?
    requires !Stops(c.intent.fields, WithConventions(c.intent.fields, env.runtime.proposal, env.extracted), env.now)
    ensures var p := WithConventions(c.intent.fields, env.runtime.proposal, env.extracted);
      var dropped := Changed(c.intent.fields, p) != {} && c.intent.selectedOffer.Some?;
      && Complete(Merged(c.intent.fields, p))
      && SearchLeaves(c, env, c.intent.(fields := Merged(c.intent.fields, p)),
                      if dropped then Operation(None, None, None, None, None, None) else c.operation, Turn(CONFIGURED, c, env))
  {
    hide WithConventions, Merged, Changed, Lapsed, SameAirports, Rejected, Searches, SearchLeaves;
    var p := WithConventions(c.intent.fields, env.runtime.proposal, env.extracted);
    StopsExactly(c.intent, p, env.now);
    var intent := c.intent.(fields := Merged(c.intent.fields, p));
    var dropped := Changed(c.intent.fields, p) != {} && c.intent.selectedOffer.Some?;
    SearchExactly(c, env, intent, if dropped then Operation(None, None, None, None, None, None) else c.operation);
    assert WorkingIntent(c, Apply(c.intent, p, env.now)) == intent;
  }

  /** Without checkout tools a search shows the best fitting offer and asks for a choice; no approval is made, nothing
      is done outside. */
  lemma WithoutCheckoutTools(c: Conversation, env: Env, intent: Intent, operation: Operation, purchase: bool)
    requires Complete(intent.fields) && env.search.Some? && env.persists
    ensures var r := Searches(Tools(false, purchase), c, env, intent, operation);
      && r.completed && r.events == [] && r.conversation.intent == intent && r.conversation.operation == operation
      && if NothingFits(env, intent.fields) then r.conversation.state == READY_TO_SEARCH && r.conversation.offers == []
         else r.conversation.state == AWAITING_OFFER_SELECTION
              && exists o :: Chosen(env, intent.fields, o) && r.conversation.offers == [o]
  {
    hide Matches, Chosen, NothingFits, SelectPreferred, Filter;
    PreferredIsChosen(env, intent.fields);
  }

  // ---------- Choosing among the offers shown ----------

  /** Without a choice the conversation goes on asking; a choice that is not among the offers still shown is
      forgotten; one that is goes to checkout and approval, or fails without their tools. */
  ghost predicate ChoiceLeaves(tools: Tools, c: Conversation, env: Env, choice: Option<Id>, intent: Intent, offers: seq<Offer>,
                               operation: Operation, r: TurnResult) {
    if choice == None || forall o :: o in offers ==> choice != Some(o.offerId) then
      r == if env.persists then TurnResult(true, Conversation(AWAITING_OFFER_SELECTION, intent, offers, operation), [])
           else TurnResult(false, c, [])
    else if !tools.checkout then r == TurnResult(false, c, [])
    else exists o :: o in offers && choice == Some(o.offerId) && TakenLeaves(c, env, intent, o, r)
  }

  /** Every message to a conversation that shows offers, where it does not stop at the intent. */
  lemma ChoosingExactly(tools: Tools, c: Conversation, env: Env)
    requires c.state == AWAITING_OFFER_SELECTION && env.runtime.Proposed?
    requires !Stops(c.intent.fields, WithConventions(c.intent.fields, env.runtime.proposal, env.extracted), env.now)
    ensures var p := WithConventions(c.intent.fields, env.runtime.proposal, env.extracted);
      var dropped := Changed(c.intent.fields, p) != {} && c.intent.selectedOffer.Some?;
      var offers := if dropped then [] else c.offers;
      var selected := if p.selectedOffer == None then (if dropped then None else c.intent.selectedOffer)
                      else if exists o :: o in offers && p.selectedOffer == Some(o.offerId) then p.selectedOffer else None;
      ChoiceLeaves(tools, c, env, p.selectedOffer, Intent(Merged(c.intent.fields, p), selected, c.intent.confirmation), offers,
                   if dropped then Operation(None, None, None, None, None, None) else c.operation, Turn(tools, c, env))
  {
    hide WithConventions, Merged, Changed, Lapsed, SameAirports, Rejected, PrepareApproval, TakenLeaves, Stops, FindOffer;
    var p := WithConventions(c.intent.fields, env.runtime.proposal, env.extracted);
    StopsExactly(c.intent, p, env.now);
    var intent := WorkingIntent(c, Apply(c.intent, p, env.now));
    var offers := if Changed(c.intent.fields, p) != {} && c.intent.selectedOffer.Some? then [] else c.offers;
    var found := FindOffer(offers, p.selectedOffer);
    if found.Some? {
      assert found.value in offers && p.selectedOffer == Some(found.value.offerId);
      TakenExactly(c, env, intent, found.value);
    }
  }

  /** Without the purchase tool no turn confirms, verifies or pays, whatever the customer says. */
  lemma WithoutPurchaseTool(checkout: bool, c: Conversation, env: Env)
    ensures forall e :: e in Turn(Tools(checkout, false), c, env).events ==>
      !e.ActivatesAuthority? && !e.RequestsPurchase? && !e.Verifies? && !e.Pays?
  {
    hide WithConventions, Apply, Complete, CheckoutGuard, Matches, FindOffer, SelectPreferred, Filter;
  }

  // ---------- The tools' guards ----------

  /** What each tool lets pass, whoever calls it: authority is activated only for a confirmation that repeats the
      pending approval in every field; a purchase needs one for the checkout and the mandate held, and an offer that
      is selected and still there. */
  lemma GuardsExactly(view: Conversation, mandateId: Id)
    ensures ActivateGuard(view, mandateId) <==>
      && view.state == AWAITING_AUTHORITY_CONFIRMATION && view.operation.pending.Some?
      && var a := view.operation.pending.value;
      view.intent.confirmation == Some(Confirmation(a.approvalId, a.merchantId, a.checkoutHash, a.amount, mandateId, CONFIRMED))
    ensures PurchaseGuard(view) <==>
      && view.state == AWAITING_AUTHORITY_CONFIRMATION && view.operation.pending.Some? && view.operation.checkoutId.Some?
      && view.intent.confirmation.Some?
      && var d := view.intent.confirmation.value;
      && d.decision == CONFIRMED && view.operation.checkoutHash == Some(d.checkoutHash) && view.operation.mandateId == Some(d.mandateId)
      && (exists o :: o in view.offers && view.intent.selectedOffer == Some(o.offerId))
      && {ORIGIN, DESTINATION, DEPARTURE, PASSENGERS, CABIN} <= view.intent.fields.Keys
    ensures CheckoutGuard(view) <==>
      view.state == AWAITING_OFFER_SELECTION && {ORIGIN, DESTINATION, DEPARTURE, PASSENGERS, CABIN} <= view.intent.fields.Keys
  {
  }
}
