/** Whole conversations: what every message keeps, whatever the model proposes and the tools answer. */
module TravelRuns {
  import opened Common
  import opened AuditEvents
  import opened TravelPolicy
  import opened TravelBot

  /** The conversation waits for a decision on exactly what `b` recorded. */
  ghost predicate BoundTo(c: Conversation, b: Binding) {
    && Complete(c.intent.fields) && c.intent.fields == b.fields && !SameAirports(b.fields)
    && c.offers == [b.offer] && c.intent.selectedOffer == Some(b.offer.offerId) && Matches(b.fields, b.offer)
    && c.operation == Operation(Some(b.checkoutId), Some(b.checkoutHash), Some(b.mandateId), None, None,
                                Some(Approval(b.approvalId, b.merchantId, b.checkoutHash, b.amount, b.mandateId)))
  }

  ghost predicate TurnInv(c: Conversation, bound: Option<Binding>) {
    && c.state in {COLLECTING, READY_TO_SEARCH, AWAITING_AUTHORITY_CONFIRMATION, COMPLETED, FAILED}
    && (c.state == AWAITING_AUTHORITY_CONFIRMATION ==> bound.Some? && BoundTo(c, bound.value))
    && (c.state == COMPLETED ==> Complete(c.intent.fields) && !SameAirports(c.intent.fields) && c.intent.selectedOffer.Some?)
  }

  /** What an outside effect may be, given the approval persisted last. */
  ghost predicate Guarded(e: Event, bound: Option<Binding>) {
    match e
    case CreatesCheckout(view, offer) => CheckoutGuard(view) && Complete(view.intent.fields) && Matches(view.intent.fields, offer)
    case PreparesAuthority(view, _) => CheckoutGuard(view)
    case ActivatesAuthority(view, mandateId) =>
      ActivateGuard(view, mandateId) && bound.Some? && BoundTo(view, bound.value) && mandateId == bound.value.mandateId
    case RequestsPurchase(view) =>
      && PurchaseGuard(view) && bound.Some? && BoundTo(view, bound.value)
      && view.intent.confirmation == Confirm(view.operation.pending.value, CONFIRMED)
    case Verifies(checkout, mandateId) =>
      && bound.Some? && checkout.checkoutId == bound.value.checkoutId && checkout.checkoutHash == bound.value.checkoutHash
      && checkout.total == bound.value.amount && mandateId == bound.value.mandateId
    case Pays(_) => bound.Some?
    case Persists(_) => true
  }

  ghost predicate AllGuarded(events: seq<Event>, bound: Option<Binding>) {
    forall e :: e in events ==> Guarded(e, bound)
  }

  function LastPersisted(trace: seq<Event>): (r: Option<Binding>)
    ensures r.Some? ==> Persists(r.value) in trace
    ensures r.None? ==> forall e :: e in trace ==> !e.Persists?
  {
    if trace == [] then None
    else
      var last := trace[|trace| - 1];
      assert trace == trace[..|trace| - 1] + [last];
      if last.Persists? then Some(last.approval) else LastPersisted(trace[..|trace| - 1])
  }

  /** A turn keeps the invariant, and everything it does outside is covered by the approval persisted
      before it; a new approval is persisted by its last event, if at all. */
  ghost predicate TurnOk(r: TurnResult, bound: Option<Binding>) {
    && AllGuarded(r.events, bound)
    && TurnInv(r.conversation, if LastPersisted(r.events).Some? then LastPersisted(r.events) else bound)
    && (forall i :: 0 <= i < |r.events| - 1 ==> !r.events[i].Persists?)
  }

  const CONFIGURED := Tools(true, true)

  lemma FailedTurnOk(c: Conversation, bound: Option<Binding>, events: seq<Event>)
    requires TurnInv(c, bound) && AllGuarded(events, bound) && forall e :: e in events ==> !e.Persists?
    ensures TurnOk(Fails(c, events), bound)
  {
  }

  /** A turn that ends anywhere but before an approval. */
  lemma PlainTurnOk(c: Conversation, env: Env, next: Conversation, bound: Option<Binding>, events: seq<Event>)
    requires TurnInv(c, bound) && TurnInv(next, bound)
    requires AllGuarded(events, bound) && forall e :: e in events ==> !e.Persists?
    ensures TurnOk(Completes(c, env, next, events, None), bound)
  {
    FailedTurnOk(c, bound, events);
  }

  lemma PrepareOk(c: Conversation, env: Env, bound: Option<Binding>, intent: Intent, selected: Offer)
    requires TurnInv(c, bound) && Complete(intent.fields) && !SameAirports(intent.fields) && Matches(intent.fields, selected)
    ensures TurnOk(PrepareApproval(c, env, intent, selected), bound)
  {
    hide Matches, SameAirports;
    var chosen := intent.(selectedOffer := Some(selected.offerId));
    var view := Conversation(AWAITING_OFFER_SELECTION, chosen, [selected], c.operation);
    var first := [CreatesCheckout(view, selected)];
    FailedTurnOk(c, bound, first);
    if env.checkout.Some? {
      var both := first + [PreparesAuthority(view, env.checkout.value)];
      FailedTurnOk(c, bound, both);
      PlainTurnOk(c, env, Conversation(READY_TO_SEARCH, chosen.(selectedOffer := None), [], EMPTY_OPERATION), bound, both);
    }
  }

  lemma SearchOk(c: Conversation, env: Env, bound: Option<Binding>, intent: Intent, operation: Operation)
    requires TurnInv(c, bound) && Complete(intent.fields) && !SameAirports(intent.fields)
    ensures TurnOk(Searches(CONFIGURED, c, env, intent, operation), bound)
  {
    hide Matches, SameAirports, PrepareApproval;
    FailedTurnOk(c, bound, []);
    PlainTurnOk(c, env, Conversation(READY_TO_SEARCH, intent, [], operation), bound, []);
    if env.search.Some? {
      var offers := Filter(env.search.value, (o: Offer) => Matches(intent.fields, o));
      if offers != [] { PrepareOk(c, env, bound, intent, SelectPreferred(env.collate, offers)); }
    }
  }

  /** The purchase tool, called with a bound conversation, verifies only the bound checkout. */
  lemma PurchaseToolOk(view: Conversation, answers: PurchaseAnswers, b: Binding)
    requires PurchaseGuard(view) && BoundTo(view, b)
    ensures var (_, calls) := PurchaseTool(view, answers);
      AllGuarded(calls, Some(b)) && forall e :: e in calls ==> !e.Persists? && !e.RequestsPurchase?
  {
    hide Matches, SameAirports, CheckoutGuard, ActivateGuard;
  }

  lemma BoundGuards(c: Conversation, intent: Intent, b: Binding)
    requires c.state == AWAITING_AUTHORITY_CONFIRMATION && BoundTo(c, b)
    requires intent.fields == c.intent.fields && intent.selectedOffer == c.intent.selectedOffer
    ensures var approval := c.operation.pending.value;
      var view := c.(intent := intent.(confirmation := Confirm(approval, CONFIRMED)));
      BoundTo(view, b) && ActivateGuard(view, approval.mandateId) && PurchaseGuard(view)
  {
    hide Matches, SameAirports;
    assert b.offer in c.offers;
  }

  lemma ConfirmOk(c: Conversation, env: Env, b: Binding, intent: Intent)
    requires c.state == AWAITING_AUTHORITY_CONFIRMATION && BoundTo(c, b)
    requires intent.fields == c.intent.fields && intent.selectedOffer == c.intent.selectedOffer
    ensures TurnOk(Confirms(CONFIGURED, c, env, intent, c.offers, c.operation, c.operation.pending.value), Some(b))
  {
    hide PurchaseGuard, ActivateGuard, PurchaseTool, BoundTo;
    BoundGuards(c, intent, b);
    BoundParts(c, b);
    var approval := c.operation.pending.value;
    var confirmed := intent.(confirmation := Confirm(approval, CONFIRMED));
    var bound := c.(intent := confirmed);
    var activation := [ActivatesAuthority(bound, approval.mandateId)];
    assert c.(intent := confirmed, operation := c.operation) == bound;
    FailedTurnOk(c, Some(b), []);
    FailedTurnOk(c, Some(b), activation);
    PurchaseToolOk(bound, env.purchase, b);
    var (purchase, calls) := PurchaseTool(bound, env.purchase);
    var events := activation + [RequestsPurchase(bound)] + calls;
    assert AllGuarded(events, Some(b));
    FailedTurnOk(c, Some(b), events);
    forall next: Conversation
      | next.state in {READY_TO_SEARCH, FAILED, COMPLETED} && (next.state == COMPLETED ==> next.intent == confirmed)
      ensures TurnOk(Completes(c, env, next, events, None), Some(b))
    {
      PlainTurnOk(c, env, next, Some(b), events);
    }
  }

  lemma BoundParts(c: Conversation, b: Binding)
    requires BoundTo(c, b)
    ensures c.operation.pending == Some(Approval(b.approvalId, b.merchantId, b.checkoutHash, b.amount, b.mandateId))
    ensures Complete(c.intent.fields) && c.intent.selectedOffer.Some?
    ensures !SameAirports(c.intent.fields)
  {
  }

  /** While an approval is pending, a turn that changes nothing works on the very intent it was made for. */
  lemma UnchangedWhileBound(c: Conversation, b: Binding, raw: Proposal, x: Extracted, now: Instant)
    requires BoundTo(c, b)
    ensures var a := Apply(c.intent, WithConventions(c.intent.fields, raw, x), now);
      && (a.invalidatesDownstream <==> a.changed != {})
      && (a.invalid == {} && !a.invalidatesDownstream ==> a.intent.fields == c.intent.fields)
  {
    hide Matches, WithConventions, SameAirports, Rejected, Merged, Changed;
    BoundParts(c, b);
    PassesUntouched(c.intent, raw, x, now);
  }

  lemma ContinueOk(c: Conversation, env: Env, bound: Option<Binding>, proposal: Proposal, intent: Intent, offers: seq<Offer>,
                   operation: Operation)
    requires TurnInv(c, bound) && Complete(intent.fields) && !SameAirports(intent.fields)
    requires intent.selectedOffer == c.intent.selectedOffer
    requires c.state == AWAITING_AUTHORITY_CONFIRMATION ==>
      || operation == EMPTY_OPERATION
      || (intent.fields == c.intent.fields && offers == c.offers && operation == c.operation)
    ensures TurnOk(Continues(CONFIGURED, c, env, proposal, intent, offers, operation), bound)
  {
    hide Matches, SameAirports, Searches, Confirms, BoundTo;
    FailedTurnOk(c, bound, []);
    if c.state == AWAITING_AUTHORITY_CONFIRMATION {
      PlainTurnOk(c, env, Conversation(READY_TO_SEARCH, intent.(selectedOffer := None), [], EMPTY_OPERATION), bound, []);
      if operation != EMPTY_OPERATION {
        BoundParts(c, bound.value);
        ConfirmOk(c, env, bound.value, intent);
        var approval := operation.pending.value;
        PlainTurnOk(c, env, Conversation(COLLECTING, intent.(confirmation := Confirm(approval, DENIED), selectedOffer := None),
                                         [], EMPTY_OPERATION), bound, []);
        StillBound(c, Conversation(AWAITING_AUTHORITY_CONFIRMATION, intent, offers, operation), bound.value);
        PlainTurnOk(c, env, Conversation(AWAITING_AUTHORITY_CONFIRMATION, intent, offers, operation), bound, []);
      }
    } else if c.state == COMPLETED {
      PlainTurnOk(c, env, Conversation(COMPLETED, intent, offers, operation), bound, []);
    } else {
      SearchOk(c, env, bound, intent, operation);
    }
  }

  lemma StillBound(c: Conversation, next: Conversation, b: Binding)
    requires BoundTo(c, b) && next.intent.fields == c.intent.fields && next.intent.selectedOffer == c.intent.selectedOffer
    requires next.offers == c.offers && next.operation == c.operation
    ensures BoundTo(next, b)
  {
  }

  lemma TurnKeeps(c: Conversation, env: Env, bound: Option<Binding>)
    requires TurnInv(c, bound)
    ensures TurnOk(Turn(CONFIGURED, c, env), bound)
  {
    hide Matches, SameAirports, Continues, BoundTo, Merged, Changed, Rejected, WithConventions, Complete;
    FailedTurnOk(c, bound, []);
    PlainTurnOk(c, env, c, bound, []);
    if env.runtime.Proposed? {
      var proposal := WithConventions(c.intent.fields, env.runtime.proposal, env.extracted);
      var a := Apply(c.intent, proposal, env.now);
      var intent := WorkingIntent(c, a);
      var offers := if a.invalidatesDownstream then [] else c.offers;
      var operation := if a.invalidatesDownstream then EMPTY_OPERATION else c.operation;
      PlainTurnOk(c, env, Conversation(COLLECTING, intent, offers, operation), bound, []);
      if Complete(intent.fields) && a.invalid == {} {
        ReadyIntent(c.intent, proposal, env.now);
        if c.state == AWAITING_AUTHORITY_CONFIRMATION {
          UnchangedWhileBound(c, bound.value, env.runtime.proposal, env.extracted, env.now);
        }
        ContinueOk(c, env, bound, proposal, intent, offers, operation);
      }
    }
  }

  // ---------- Whole conversations ----------

  datatype Session = Session(conversation: Conversation, trace: seq<Event>)

  function RunTurns(s: Session, envs: seq<Env>): Session
    decreases |envs|
  {
    if envs == [] then s
    else
      var r := Turn(CONFIGURED, s.conversation, envs[0]);
      RunTurns(Session(r.conversation, s.trace + r.events), envs[1..])
  }

  const CREATED := Session(CREATED_BODY, [])

  ghost predicate SessionInv(s: Session) {
    && TurnInv(s.conversation, LastPersisted(s.trace))
    && forall i :: 0 <= i < |s.trace| ==> Guarded(s.trace[i], LastPersisted(s.trace[..i]))
  }

  lemma {:induction false} LastPersistedAppend(a: seq<Event>, b: seq<Event>)
    ensures LastPersisted(a + b) == if LastPersisted(b).Some? then LastPersisted(b) else LastPersisted(a)
  {
    if b == [] {
      assert a + b == a;
    } else {
      assert (a + b)[..|a + b| - 1] == a + b[..|b| - 1];
      LastPersistedAppend(a, b[..|b| - 1]);
    }
  }

  lemma SessionKeeps(s: Session, env: Env)
    requires SessionInv(s)
    ensures var r := Turn(CONFIGURED, s.conversation, env);
      SessionInv(Session(r.conversation, s.trace + r.events))
  {
    hide Turn, TurnInv, Guarded, LastPersisted;
    var r := Turn(CONFIGURED, s.conversation, env);
    TurnKeeps(s.conversation, env, LastPersisted(s.trace));
    LastPersistedAppend(s.trace, r.events);
    var trace := s.trace + r.events;
    forall i | 0 <= i < |trace| ensures Guarded(trace[i], LastPersisted(trace[..i])) {
      if i < |s.trace| { assert trace[..i] == s.trace[..i]; }
      else { TurnEventGuarded(s.trace, r, i - |s.trace|); }
    }
  }

  lemma TurnEventGuarded(trace: seq<Event>, r: TurnResult, k: nat)
    requires k < |r.events| && TurnOk(r, LastPersisted(trace))
    ensures var i := |trace| + k; Guarded(r.events[k], LastPersisted((trace + r.events)[..i]))
  {
    hide Guarded, TurnOk, LastPersisted;
    TurnEvents(r, LastPersisted(trace), k);
    LastPersistedAppend(trace, r.events[..k]);
    TakeAppended(trace, r.events, k);
  }

  /** Before an event of a turn that turn has persisted nothing. */
  lemma TurnEvents(r: TurnResult, bound: Option<Binding>, k: nat)
    requires k < |r.events| && TurnOk(r, bound)
    ensures Guarded(r.events[k], bound) && LastPersisted(r.events[..k]) == None
  {
    hide Guarded, TurnInv;
    assert r.events[k] in r.events;
    forall e | e in r.events[..k] ensures !e.Persists? {
      var j :| 0 <= j < k && r.events[..k][j] == e;
    }
  }

  lemma TakeAppended(a: seq<Event>, b: seq<Event>, k: nat)
    requires k <= |b|
    ensures (a + b)[..|a| + k] == a + b[..k]
  {
  }

  lemma {:induction false} RunKeeps(s: Session, envs: seq<Env>)
    requires SessionInv(s)
    ensures SessionInv(RunTurns(s, envs))
    decreases |envs|
  {
    hide SessionInv, Turn;
    if envs != [] {
      SessionKeeps(s, envs[0]);
      var r := Turn(CONFIGURED, s.conversation, envs[0]);
      RunKeeps(Session(r.conversation, s.trace + r.events), envs[1..]);
    }
  }

  lemma CreatedInv()
    ensures SessionInv(CREATED)
  {
  }

  lemma BoundView(view: Conversation, b: Binding)
    requires BoundTo(view, b)
    ensures view.intent.fields == b.fields && FindOffer(view.offers, view.intent.selectedOffer) == Some(b.offer)
    ensures view.operation.checkoutId == Some(b.checkoutId) && view.operation.checkoutHash == Some(b.checkoutHash)
    ensures view.operation.mandateId == Some(b.mandateId)
    ensures view.operation.pending == Some(Approval(b.approvalId, b.merchantId, b.checkoutHash, b.amount, b.mandateId))
  {
    hide Matches, SameAirports;
  }

  /** Over every conversation, whatever the model proposes: each purchase request is made with the trip
      fields, the offer, the checkout hash, the amount and the mandate that were persisted with the
      approval created last before it, and what is sent for verification is that same checkout. */
  lemma PurchasesAreBound(envs: seq<Env>, i: nat)
    requires i < |RunTurns(CREATED, envs).trace|
    ensures var trace := RunTurns(CREATED, envs).trace;
      var bound := LastPersisted(trace[..i]);
      match trace[i]
      case RequestsPurchase(view) =>
        && bound.Some? && Persists(bound.value) in trace[..i]
        && view.intent.fields == bound.value.fields
        && FindOffer(view.offers, view.intent.selectedOffer) == Some(bound.value.offer)
        && view.operation.checkoutId == Some(bound.value.checkoutId)
        && view.operation.checkoutHash == Some(bound.value.checkoutHash)
        && view.operation.mandateId == Some(bound.value.mandateId)
        && view.intent.confirmation == Some(Confirmation(bound.value.approvalId, bound.value.merchantId,
             bound.value.checkoutHash, bound.value.amount, bound.value.mandateId, CONFIRMED))
      case Verifies(checkout, mandateId) =>
        && bound.Some? && checkout.checkoutId == bound.value.checkoutId
        && checkout.checkoutHash == bound.value.checkoutHash && checkout.total == bound.value.amount
        && mandateId == bound.value.mandateId
      case _ => true
  {
    hide BoundTo, PurchaseGuard, ActivateGuard, CheckoutGuard, RunTurns, TurnInv;
    CreatedInv();
    RunKeeps(CREATED, envs);
    var trace := RunTurns(CREATED, envs).trace;
    assert Guarded(trace[i], LastPersisted(trace[..i]));
    if trace[i].RequestsPurchase? { BoundView(trace[i].view, LastPersisted(trace[..i]).value); }
  }

  /** Called by the service, the four application tools never meet a state they refuse; every checkout is
      created for an offer that fits the complete intent, its budget included. */
  lemma ToolGuardsHold(envs: seq<Env>, e: Event)
    requires e in RunTurns(CREATED, envs).trace
    ensures match e
      case CreatesCheckout(view, offer) =>
        CheckoutGuard(view) && Complete(view.intent.fields) && Matches(view.intent.fields, offer)
      case PreparesAuthority(view, _) => CheckoutGuard(view)
      case ActivatesAuthority(view, mandateId) => ActivateGuard(view, mandateId)
      case RequestsPurchase(view) => PurchaseGuard(view)
      case _ => true
  {
    CreatedInv();
    RunKeeps(CREATED, envs);
    var trace := RunTurns(CREATED, envs).trace;
    var i :| 0 <= i < |trace| && trace[i] == e;
    assert Guarded(trace[i], LastPersisted(trace[..i]));
  }

  /** Every reachable conversation that waits for a confirmation has a complete trip with a date, one
      selected offer that fits it, and a pending approval; no reachable one waits for an offer choice. */
  lemma WaitingIsWellFormed(envs: seq<Env>)
    ensures var c := RunTurns(CREATED, envs).conversation;
      && c.state !in {AWAITING_OFFER_SELECTION, READY_TO_PURCHASE, EXECUTING}
      && (c.state == AWAITING_AUTHORITY_CONFIRMATION ==>
           && Complete(c.intent.fields) && !SameAirports(c.intent.fields)
           && |c.offers| == 1 && c.intent.selectedOffer == Some(c.offers[0].offerId)
           && Matches(c.intent.fields, c.offers[0])
           && c.operation.pending.Some? && c.operation.checkoutId.Some?
           && c.operation.checkoutHash == Some(c.operation.pending.value.checkoutHash)
           && c.operation.mandateId == Some(c.operation.pending.value.mandateId))
  {
    CreatedInv();
    RunKeeps(CREATED, envs);
  }

  // ---------- Exactly when a purchase is requested ----------

  ghost predicate Requests(r: TurnResult) {
    exists e :: e in r.events && e.RequestsPurchase?
  }

  /** In a reachable conversation a turn requests a purchase exactly when an approval is pending, the model
      says CONFIRM and doubts and changes nothing, the departure has not lapsed, and the confirmation could
      be resumed and the mandate activated. Anything else diverts the turn. */
  lemma PurchaseExactly(envs: seq<Env>, env: Env)
    ensures var c := RunTurns(CREATED, envs).conversation;
      Requests(Turn(CONFIGURED, c, env)) <==>
        && c.state == AWAITING_AUTHORITY_CONFIRMATION
        && env.runtime.Proposed? && env.runtime.proposal.confirmation == Some(CONFIRM)
        && Repeats(c.intent.fields, env.runtime.proposal) && !Lapsed(c.intent.fields, env.now)
        && env.resumes && env.activates
  {
    hide TurnInv, Lapsed, SameAirports, Repeats, Turn, Complete, Requests;
    CreatedInv();
    RunKeeps(CREATED, envs);
    var s := RunTurns(CREATED, envs);
    RequestOnlyWhileBound(s.conversation, env, LastPersisted(s.trace));
  }

  lemma NoRequest(c: Conversation, env: Env)
    ensures !Requests(Fails(c, []))
    ensures forall next :: !Requests(Finishes(c, env, next))
  {
  }

  lemma SearchRequestsNothing(c: Conversation, env: Env, intent: Intent, operation: Operation)
    requires Complete(intent.fields)
    ensures !Requests(Searches(CONFIGURED, c, env, intent, operation))
  {
    hide Matches;
  }

  lemma ConfirmRequests(c: Conversation, env: Env, b: Binding, intent: Intent)
    requires c.state == AWAITING_AUTHORITY_CONFIRMATION && BoundTo(c, b)
    requires intent.fields == c.intent.fields && intent.selectedOffer == c.intent.selectedOffer
    ensures var approval := Approval(b.approvalId, b.merchantId, b.checkoutHash, b.amount, b.mandateId);
      Requests(Confirms(CONFIGURED, c, env, intent, c.offers, c.operation, approval)) <==> env.resumes && env.activates
  {
    hide PurchaseGuard, ActivateGuard, PurchaseTool, BoundTo;
    BoundGuards(c, intent, b);
    BoundParts(c, b);
    var approval := c.operation.pending.value;
    var bound := c.(intent := intent.(confirmation := Confirm(approval, CONFIRMED)));
    assert c.(intent := bound.intent, operation := c.operation) == bound;
    var r := Confirms(CONFIGURED, c, env, intent, c.offers, c.operation, approval);
    if env.resumes && env.activates {
      assert r.events[1] == RequestsPurchase(bound);
      assert r.events[1] in r.events;
    }
  }

  lemma RequestOnlyWhileBound(c: Conversation, env: Env, bound: Option<Binding>)
    requires TurnInv(c, bound)
    ensures Requests(Turn(CONFIGURED, c, env)) <==>
        && c.state == AWAITING_AUTHORITY_CONFIRMATION
        && env.runtime.Proposed? && env.runtime.proposal.confirmation == Some(CONFIRM)
        && Repeats(c.intent.fields, env.runtime.proposal) && !Lapsed(c.intent.fields, env.now)
        && env.resumes && env.activates
  {
    hide Matches, SameAirports, BoundTo, Merged, Changed, Rejected, WithConventions, Complete, Searches, Confirms, Lapsed, Repeats;
    hide Requests;
    NoRequest(c, env);
    if env.runtime.Proposed? {
      var proposal := WithConventions(c.intent.fields, env.runtime.proposal, env.extracted);
      var a := Apply(c.intent, proposal, env.now);
      if c.state == AWAITING_AUTHORITY_CONFIRMATION {
        BoundParts(c, bound.value);
        ConventionsOnComplete(c.intent.fields, env.runtime.proposal, env.extracted);
        PassesUntouched(c.intent, env.runtime.proposal, env.extracted, env.now);
        UnchangedWhileBound(c, bound.value, env.runtime.proposal, env.extracted, env.now);
        if a.invalid == {} && !a.invalidatesDownstream { ConfirmRequests(c, env, bound.value, WorkingIntent(c, a)); }
      } else {
        if Complete(a.intent.fields) {
          SearchRequestsNothing(c, env, WorkingIntent(c, a), c.operation);
          SearchRequestsNothing(c, env, WorkingIntent(c, a), EMPTY_OPERATION);
        }
      }
    }
  }

  // ---------- What an approval is worth ----------

  /** An approval is used up: from any reachable conversation that is not waiting (denied, bought, refused,
      stale, diverted, never asked), every later purchase request needs an approval persisted later still. */
  lemma NoPurchaseWithoutNewApproval(envs: seq<Env>, more: seq<Env>, i: nat)
    requires var c := RunTurns(CREATED, envs).conversation; c.state != AWAITING_AUTHORITY_CONFIRMATION
    requires i < |RunTurns(Session(RunTurns(CREATED, envs).conversation, []), more).trace|
    ensures var trace := RunTurns(Session(RunTurns(CREATED, envs).conversation, []), more).trace;
      trace[i].RequestsPurchase? ==> exists k :: 0 <= k < i && trace[k].Persists?
  {
    hide Guarded, RunTurns;
    CreatedInv();
    RunKeeps(CREATED, envs);
    var s := Session(RunTurns(CREATED, envs).conversation, []);
    assert SessionInv(s);
    RunKeeps(s, more);
    var trace := RunTurns(s, more).trace;
    if trace[i].RequestsPurchase? {
      RequestNeedsApproval(trace[i], LastPersisted(trace[..i]));
      var b := LastPersisted(trace[..i]).value;
      var k :| 0 <= k < i && trace[..i][k] == Persists(b);
      assert trace[k].Persists?;
    }
  }

  lemma RequestNeedsApproval(e: Event, bound: Option<Binding>)
    requires e.RequestsPurchase? && Guarded(e, bound)
    ensures bound.Some?
  {
  }

  /** The approval a turn persists is for the best of the offers found that fit the intent it leaves, and
      carries the merchant's checkout and the prepared mandate as they were answered. */
  lemma ApprovalIsForTheBestOffer(envs: seq<Env>, env: Env, b: Binding)
    requires Persists(b) in Turn(CONFIGURED, RunTurns(CREATED, envs).conversation, env).events
    ensures env.search.Some? && b.offer in env.search.value && Complete(b.fields) && Matches(b.fields, b.offer)
    ensures forall o :: o in env.search.value && Matches(b.fields, o) ==> !Precedes(env.collate, o, b.offer)
    ensures env.checkout == Some(Checkout(b.checkoutId, b.checkoutHash, b.merchantId, b.amount)) && env.mandateId == Some(b.mandateId)
    ensures var c := Turn(CONFIGURED, RunTurns(CREATED, envs).conversation, env).conversation;
      c.state == AWAITING_AUTHORITY_CONFIRMATION && BoundTo(c, b)
  {
    hide RunTurns, TurnInv, BoundTo, Turn;
    CreatedInv();
    RunKeeps(CREATED, envs);
    var s := RunTurns(CREATED, envs);
    var c := s.conversation;
    assert c.state != AWAITING_OFFER_SELECTION by { NotSelecting(c, LastPersisted(s.trace)); }
    PersistingTurn(c, env, b);
    TurnKeeps(c, env, LastPersisted(s.trace));
    LastOfPersisted(Turn(CONFIGURED, c, env).events, b);
    WaitingIsBound(Turn(CONFIGURED, c, env).conversation, Some(b));
  }

  lemma NotSelecting(c: Conversation, bound: Option<Binding>)
    requires TurnInv(c, bound)
    ensures c.state != AWAITING_OFFER_SELECTION
  {
  }

  lemma WaitingIsBound(c: Conversation, bound: Option<Binding>)
    requires TurnInv(c, bound) && c.state == AWAITING_AUTHORITY_CONFIRMATION
    ensures bound.Some? && BoundTo(c, bound.value)
  {
  }

  lemma LastOfPersisted(events: seq<Event>, b: Binding)
    requires Persists(b) in events && forall i :: 0 <= i < |events| - 1 ==> !events[i].Persists?
    ensures LastPersisted(events) == Some(b)
  {
  }

  lemma PersistingTurn(c: Conversation, env: Env, b: Binding)
    requires c.state != AWAITING_OFFER_SELECTION && Persists(b) in Turn(CONFIGURED, c, env).events
    ensures env.search.Some? && b.offer in env.search.value && Complete(b.fields) && Matches(b.fields, b.offer)
    ensures forall o :: o in env.search.value && Matches(b.fields, o) ==> !Precedes(env.collate, o, b.offer)
    ensures env.checkout == Some(Checkout(b.checkoutId, b.checkoutHash, b.merchantId, b.amount)) && env.mandateId == Some(b.mandateId)
    ensures Turn(CONFIGURED, c, env).conversation.state == AWAITING_AUTHORITY_CONFIRMATION
  {
    hide Matches, Apply, WithConventions, PurchaseTool, ActivateGuard, Searches, Complete;
    PurchasePersistsNothing(c, env);
    var proposal := WithConventions(c.intent.fields, env.runtime.proposal, env.extracted);
    var intent := WorkingIntent(c, Apply(c.intent, proposal, env.now));
    var a := Apply(c.intent, proposal, env.now);
    var operation := if a.invalidatesDownstream then EMPTY_OPERATION else c.operation;
    assert Turn(CONFIGURED, c, env) == Searches(CONFIGURED, c, env, intent, operation);
    PersistingSearch(c, env, intent, operation, b);
  }

  lemma PersistingPreparation(c: Conversation, env: Env, intent: Intent, selected: Offer, b: Binding)
    requires Persists(b) in PrepareApproval(c, env, intent, selected).events
    ensures b.offer == selected && b.fields == intent.fields
    ensures env.checkout == Some(Checkout(b.checkoutId, b.checkoutHash, b.merchantId, b.amount)) && env.mandateId == Some(b.mandateId)
    ensures PrepareApproval(c, env, intent, selected).conversation.state == AWAITING_AUTHORITY_CONFIRMATION
  {
    hide CheckoutGuard;
  }

  lemma PersistingSearch(c: Conversation, env: Env, intent: Intent, operation: Operation, b: Binding)
    requires Complete(intent.fields) && Persists(b) in Searches(CONFIGURED, c, env, intent, operation).events
    ensures env.search.Some? && b.offer in env.search.value && Complete(b.fields) && Matches(b.fields, b.offer)
    ensures forall o :: o in env.search.value && Matches(b.fields, o) ==> !Precedes(env.collate, o, b.offer)
    ensures env.checkout == Some(Checkout(b.checkoutId, b.checkoutHash, b.merchantId, b.amount)) && env.mandateId == Some(b.mandateId)
    ensures Searches(CONFIGURED, c, env, intent, operation).conversation.state == AWAITING_AUTHORITY_CONFIRMATION
  {
    hide Matches, Precedes, PrepareApproval;
    var offers := Filter(env.search.value, (o: Offer) => Matches(intent.fields, o));
    assert offers != [];
    PersistingPreparation(c, env, intent, SelectPreferred(env.collate, offers), b);
  }

  lemma PurchasePersistsNothing(c: Conversation, env: Env)
    ensures forall view, b :: Persists(b) !in PurchaseTool(view, env.purchase).1
  {
    hide PurchaseGuard;
  }

  /** A purchase by the confirmed branch, and its trace in the turn's events. */
  ghost predicate BoughtAs(env: Env, r: TurnResult, b: Binding) {
    && env.purchase.checkout.Some? && env.purchase.checkout.value.checkoutId == b.checkoutId
    && env.purchase.checkout.value.checkoutHash == b.checkoutHash && env.purchase.checkout.value.total == b.amount
    && Verifies(env.purchase.checkout.value, b.mandateId) in r.events
    && r.conversation.operation.authorizationId.Some? && Pays(r.conversation.operation.authorizationId.value) in r.events
    && env.purchase.payment == Some(APPROVED)
    && r.conversation.operation.receiptId.Some? && env.purchase.receipt == Some(r.conversation.operation.receiptId)
    && r.conversation.operation.pending == None
  }

  lemma BuyingConfirm(c: Conversation, env: Env, b: Binding, intent: Intent)
    requires c.state == AWAITING_AUTHORITY_CONFIRMATION && BoundTo(c, b)
    requires intent.fields == c.intent.fields && intent.selectedOffer == c.intent.selectedOffer
    requires Confirms(CONFIGURED, c, env, intent, c.offers, c.operation, c.operation.pending.value).conversation.state == COMPLETED
    ensures BoughtAs(env, Confirms(CONFIGURED, c, env, intent, c.offers, c.operation, c.operation.pending.value), b)
  {
    hide PurchaseGuard, ActivateGuard, Matches, SameAirports;
    var approval := c.operation.pending.value;
    var bound := c.(intent := intent.(confirmation := Confirm(approval, CONFIRMED)));
    assert c.(intent := bound.intent, operation := c.operation) == bound;
    var (purchase, calls) := PurchaseTool(bound, env.purchase);
    var events := [ActivatesAuthority(bound, approval.mandateId)] + [RequestsPurchase(bound)] + calls;
    assert forall e :: e in calls ==> e in events;
    assert Confirms(CONFIGURED, c, env, intent, c.offers, c.operation, approval).events == events;
    assert purchase.Some? && purchase.value.Bought?;
    assert calls == [Verifies(env.purchase.checkout.value, b.mandateId), Pays(purchase.value.authorizationId)];
  }

  lemma SearchNeverCompletes(c: Conversation, env: Env, intent: Intent, operation: Operation)
    requires Complete(intent.fields) && c.state != COMPLETED
    ensures Searches(CONFIGURED, c, env, intent, operation).conversation.state != COMPLETED
  {
    hide Matches;
  }

  lemma CompletingTurn(c: Conversation, env: Env, bound: Option<Binding>)
    requires TurnInv(c, bound) && c.state != COMPLETED && Turn(CONFIGURED, c, env).conversation.state == COMPLETED
    ensures c.state == AWAITING_AUTHORITY_CONFIRMATION && bound.Some?
    ensures BoughtAs(env, Turn(CONFIGURED, c, env), bound.value)
  {
    hide Matches, SameAirports, Merged, Changed, Rejected, WithConventions, Complete, Searches, Confirms, BoundTo, BoughtAs;
    var proposal := WithConventions(c.intent.fields, env.runtime.proposal, env.extracted);
    var a := Apply(c.intent, proposal, env.now);
    var intent := WorkingIntent(c, a);
    var operation := if a.invalidatesDownstream then EMPTY_OPERATION else c.operation;
    if Complete(intent.fields) { SearchNeverCompletes(c, env, intent, operation); }
    if c.state == AWAITING_AUTHORITY_CONFIRMATION {
      BoundParts(c, bound.value);
      UnchangedWhileBound(c, bound.value, env.runtime.proposal, env.extracted, env.now);
      if Confirms(CONFIGURED, c, env, intent, c.offers, c.operation, c.operation.pending.value).conversation.state == COMPLETED
         && a.invalid == {} && !a.invalidatesDownstream {
        BuyingConfirm(c, env, bound.value, intent);
      }
    }
  }

  /** A conversation becomes completed only in a turn that paid: the bound checkout was verified, the payment
      approved, and the receipt and authorization kept are the ones that were answered. */
  lemma CompletedMeansPaid(envs: seq<Env>, env: Env)
    requires var c := RunTurns(CREATED, envs).conversation;
      c.state != COMPLETED && Turn(CONFIGURED, c, env).conversation.state == COMPLETED
    ensures var s := RunTurns(CREATED, envs);
      var bound := LastPersisted(s.trace);
      && s.conversation.state == AWAITING_AUTHORITY_CONFIRMATION && bound.Some?
      && BoughtAs(env, Turn(CONFIGURED, s.conversation, env), bound.value)
  {
    hide RunTurns, TurnInv, BoundTo, BoughtAs;
    CreatedInv();
    RunKeeps(CREATED, envs);
    var s := RunTurns(CREATED, envs);
    CompletingTurn(s.conversation, env, LastPersisted(s.trace));
  }
}
