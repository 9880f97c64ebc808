/** One message of a travel conversation (travelbot/service.ts over travelbot/application-tools.ts). The
    model, the tools, the clock and the database may answer anything. */
module TravelBot {
  import opened Common
  import opened AuditEvents
  import opened Calendar
  import opened TravelPolicy

  datatype State =
    | COLLECTING | READY_TO_SEARCH | AWAITING_OFFER_SELECTION | AWAITING_AUTHORITY_CONFIRMATION
    | READY_TO_PURCHASE | EXECUTING | COMPLETED | FAILED

  datatype Offer = Offer(
    offerId: Id, merchantId: Id, origin: string, destination: string, departs: Civil, departureTime: Instant,
    cabin: CabinClass, total: Money)

  datatype Checkout = Checkout(checkoutId: Id, checkoutHash: Digest, merchantId: Id, total: Money)

  datatype Approval = Approval(approvalId: Id, merchantId: Id, checkoutHash: Digest, amount: Money, mandateId: Id)

  datatype Operation = Operation(
    checkoutId: Option<Id>, checkoutHash: Option<Digest>, mandateId: Option<Id>,
    authorizationId: Option<Id>, receiptId: Option<Id>, pending: Option<Approval>)

  const EMPTY_OPERATION := Operation(None, None, None, None, None, None)

  datatype Conversation = Conversation(state: State, intent: Intent, offers: seq<Offer>, operation: Operation)

  /** A conversation as it is created. */
  const CREATED_BODY := Conversation(
    COLLECTING, Intent(map[PASSENGERS := Travellers(1), CABIN := Seat(ECONOMY)], None, None), [], EMPTY_OPERATION)

  // ---------- Offers ----------

  predicate DepartsIn(d: Departure, c: Civil) {
    match d
    case InMonth(year, month) => c.year == year && c.month == month
    case OnDay(date) => c == date
  }

  /** The filter over search results. */
  predicate Matches(fields: Fields, offer: Offer)
    requires Complete(fields)
  {
    && offer.origin == fields[ORIGIN].iata
    && offer.destination == fields[DESTINATION].iata
    && DepartsIn(fields[DEPARTURE].departure, offer.departs)
    && offer.cabin == fields[CABIN].cabin
    && offer.total.currency == fields[BUDGET].limit.currency
    && offer.total.amount * fields[PASSENGERS].count <= fields[BUDGET].limit.amount
  }

  /** `collate` stands for `localeCompare`: a rank for every identifier. */
  predicate Precedes(collate: Id -> int, a: Offer, b: Offer) {
    || a.total.amount < b.total.amount
    || (a.total.amount == b.total.amount
        && (a.departureTime < b.departureTime
            || (a.departureTime == b.departureTime && collate(a.offerId) < collate(b.offerId))))
  }

  /** The head of the stably sorted offers: cheapest, then earliest, then first by name. */
  function SelectPreferred(collate: Id -> int, offers: seq<Offer>): (r: Offer)
    requires offers != []
    ensures r in offers && forall o :: o in offers ==> !Precedes(collate, o, r)
  {
    var last := offers[|offers| - 1];
    if |offers| == 1 then last
    else
      var best := SelectPreferred(collate, offers[..|offers| - 1]);
      assert offers == offers[..|offers| - 1] + [last];
      if Precedes(collate, last, best) then last else best
  }

  function FindOffer(offers: seq<Offer>, id: Option<Id>): (r: Option<Offer>)
    ensures r.Some? ==> r.value in offers && id == Some(r.value.offerId)
    ensures r.None? ==> forall o :: o in offers ==> id != Some(o.offerId)
  {
    if offers == [] then None
    else if id == Some(offers[0].offerId) then Some(offers[0])
    else
      assert offers == [offers[0]] + offers[1..];
      FindOffer(offers[1..], id)
  }

  // ---------- What a turn is given ----------

  datatype Runtime = InvalidOutput | Unavailable | Proposed(proposal: Proposal)

  /** Whether the runtime and the protector produced a resumable approval state. */
  datatype Preparation = Prepared | NotPrepared | PreparationThrows

  /** What the ports under `requestPurchase` answer; None where the call throws. */
  datatype PurchaseAnswers = PurchaseAnswers(
    checkout: Option<Checkout>,
    mandateActive: bool,
    decision: Option<Option<Id>>,
    payment: Option<PaymentStatus>,
    receipt: Option<Option<Id>>)

  datatype Env = Env(
    runtime: Runtime,
    extracted: Extracted,
    now: Instant,
    search: Option<seq<Offer>>,
    checkout: Option<Checkout>,
    mandateId: Option<Id>,
    preparation: Preparation,
    approvalId: Id,
    resumes: bool,
    activates: bool,
    purchase: PurchaseAnswers,
    reading: bool,
    persists: bool,
    collate: Id -> int)

  /** Which optional tools are configured. */
  datatype Tools = Tools(checkout: bool, purchase: bool)

  // ---------- What a turn does to the outside ----------

  /** Everything an approval stands for when it is created. */
  datatype Binding = Binding(
    approvalId: Id, fields: Fields, offer: Offer, checkoutId: Id, checkoutHash: Digest, amount: Money,
    merchantId: Id, mandateId: Id)

  datatype Event =
    | CreatesCheckout(view: Conversation, offer: Offer)
    | PreparesAuthority(view: Conversation, checkout: Checkout)
    | ActivatesAuthority(view: Conversation, mandateId: Id)
    | RequestsPurchase(view: Conversation)
    | Verifies(checkout: Checkout, mandateId: Id)
    | Pays(authorizationId: Id)
    | Persists(approval: Binding)

  datatype Purchase = Bought(authorizationId: Id, receiptId: Id) | Stale | Refused(attempted: Option<Id>)

  // ---------- The guards of the application tools ----------

  predicate CompleteForTools(fields: Fields) {
    ORIGIN in fields && DESTINATION in fields && DEPARTURE in fields && PASSENGERS in fields && CABIN in fields
  }

  /** `createCheckout` and `prepareAuthority` do not throw. */
  predicate CheckoutGuard(view: Conversation) {
    CompleteForTools(view.intent.fields) && view.state == AWAITING_OFFER_SELECTION
  }

  predicate ActivateGuard(view: Conversation, mandateId: Id) {
    && view.state == AWAITING_AUTHORITY_CONFIRMATION
    && view.operation.pending.Some? && view.intent.confirmation.Some?
    && var approval, confirmation := view.operation.pending.value, view.intent.confirmation.value;
    && confirmation.decision == CONFIRMED
    && confirmation.approvalId == approval.approvalId
    && confirmation.checkoutHash == approval.checkoutHash
    && confirmation.merchantId == approval.merchantId
    && confirmation.amount == approval.amount
    && confirmation.mandateId == mandateId
  }

  predicate PurchaseGuard(view: Conversation) {
    && CompleteForTools(view.intent.fields)
    && view.state == AWAITING_AUTHORITY_CONFIRMATION
    && view.operation.pending.Some?
    && view.intent.confirmation.Some? && view.intent.confirmation.value.decision == CONFIRMED
    && FindOffer(view.offers, view.intent.selectedOffer).Some?
    && view.operation.checkoutId.Some?
    && view.operation.checkoutHash == Some(view.intent.confirmation.value.checkoutHash)
    && view.operation.mandateId == Some(view.intent.confirmation.value.mandateId)
  }

  /** `requestPurchase` behind its guard: the checkout is created again and must be the very same. None
      where it throws. */
  function PurchaseTool(view: Conversation, a: PurchaseAnswers): (Option<Purchase>, seq<Event>) {
    if !PurchaseGuard(view) || a.checkout.None? then (None, [])
    else
      var c, approval := a.checkout.value, view.operation.pending.value;
      if Some(c.checkoutId) != view.operation.checkoutId || Some(c.checkoutHash) != view.operation.checkoutHash
         || c.total != approval.amount then (Some(Stale), [])
      else if !a.mandateActive then (None, [])
      else
        var verified := [Verifies(c, view.operation.mandateId.value)];
        if a.decision.None? then (None, verified)
        else if a.decision.value.None? then (Some(Refused(None)), verified)
        else
          var id := a.decision.value.value;
          var paid := verified + [Pays(id)];
          if a.payment.None? then (None, paid)
          else if a.payment.value != APPROVED then (Some(Refused(Some(id))), paid)
          else if a.receipt.None? || a.receipt.value.None? then (None, paid)
          else (Some(Bought(id, a.receipt.value.value)), paid)
  }

  /** The checkout that the conversation holds an approval for. */
  predicate HeldCheckout(view: Conversation, c: Checkout) {
    && Some(c.checkoutId) == view.operation.checkoutId && Some(c.checkoutHash) == view.operation.checkoutHash
    && view.operation.pending.Some? && c.total == view.operation.pending.value.amount
  }

  /** What a purchase request does, whatever the ports answer: it verifies only the held checkout, under the
      held mandate, once, and only while that mandate is active; it pays only the authorization that this
      verification allowed; it reports a purchase exactly when that payment was approved and has a receipt;
      and a stale checkout stops it before anything was asked for. */
  lemma PurchaseToolExactly(view: Conversation, a: PurchaseAnswers)
    ensures var (r, calls) := PurchaseTool(view, a);
      && |calls| <= 2
      && (calls != [] <==> PurchaseGuard(view) && a.checkout.Some? && HeldCheckout(view, a.checkout.value) && a.mandateActive)
      && (calls != [] ==>
           calls[0].Verifies? && HeldCheckout(view, calls[0].checkout) && Some(calls[0].mandateId) == view.operation.mandateId)
      && (|calls| == 2 <==> calls != [] && a.decision.Some? && a.decision.value.Some?)
      && (|calls| == 2 ==> calls[1] == Pays(a.decision.value.value))
      && (r == Some(Stale) <==> PurchaseGuard(view) && a.checkout.Some? && !HeldCheckout(view, a.checkout.value))
      && (forall id, receipt :: r == Some(Bought(id, receipt)) <==>
           |calls| == 2 && calls[1] == Pays(id) && a.payment == Some(APPROVED) && a.receipt == Some(Some(receipt)))
      && (forall id :: r == Some(Refused(Some(id))) <==>
           |calls| == 2 && calls[1] == Pays(id) && a.payment.Some? && a.payment != Some(APPROVED))
      && (r == Some(Refused(None)) <==> calls != [] && a.decision == Some(None))
  {
    hide CompleteForTools;
  }

  // ---------- The turn ----------

  /** The conversation after the turn (as before when the turn failed) and what the turn did. */
  datatype TurnResult = TurnResult(completed: bool, conversation: Conversation, events: seq<Event>)

  function Fails(c: Conversation, events: seq<Event>): TurnResult { TurnResult(false, c, events) }

  /** `completeTurn`, which may fail; `created` is the approval the turn made, if any. */
  function Completes(c: Conversation, env: Env, next: Conversation, events: seq<Event>, created: Option<Binding>): TurnResult {
    if !env.persists then Fails(c, events)
    else TurnResult(true, next, if created.Some? then events + [Persists(created.value)] else events)
  }

  function Finishes(c: Conversation, env: Env, next: Conversation): TurnResult {
    Completes(c, env, next, [], None)
  }

  /** `prepareOfferApproval`, when the checkout tools are configured. */
  function PrepareApproval(c: Conversation, env: Env, intent: Intent, selected: Offer): TurnResult {
    var chosen := intent.(selectedOffer := Some(selected.offerId));
    var view := Conversation(AWAITING_OFFER_SELECTION, chosen, [selected], c.operation);
    var first := [CreatesCheckout(view, selected)];
    if !CheckoutGuard(view) || env.checkout.None? then Fails(c, first)
    else
      var checkout := env.checkout.value;
      var both := first + [PreparesAuthority(view, checkout)];
      if env.mandateId.None? || env.preparation == PreparationThrows then Fails(c, both)
      else if env.preparation == NotPrepared then
        Completes(c, env, Conversation(READY_TO_SEARCH, chosen.(selectedOffer := None), [], EMPTY_OPERATION), both, None)
      else
        var approval := Approval(env.approvalId, checkout.merchantId, checkout.checkoutHash, checkout.total, env.mandateId.value);
        var operation := Operation(Some(checkout.checkoutId), Some(checkout.checkoutHash), env.mandateId, None, None, Some(approval));
        Completes(c, env, Conversation(AWAITING_AUTHORITY_CONFIRMATION, chosen, [selected], operation), both,
          Some(Binding(env.approvalId, chosen.fields, selected, checkout.checkoutId, checkout.checkoutHash, checkout.total,
                       checkout.merchantId, env.mandateId.value)))
  }

  function Confirm(approval: Approval, decision: Settlement): Option<Confirmation> {
    Some(Confirmation(approval.approvalId, approval.merchantId, approval.checkoutHash, approval.amount, approval.mandateId, decision))
  }

  function Denies(c: Conversation, env: Env, intent: Intent, approval: Approval): TurnResult {
    if !env.resumes then Fails(c, [])
    else
      Finishes(c, env,
        Conversation(COLLECTING, intent.(confirmation := Confirm(approval, DENIED), selectedOffer := None), [], EMPTY_OPERATION))
  }

  function Confirms(tools: Tools, c: Conversation, env: Env, intent: Intent, offers: seq<Offer>, operation: Operation,
                    approval: Approval): TurnResult {
    if !tools.purchase || !env.resumes then Fails(c, [])
    else
      var confirmed := intent.(confirmation := Confirm(approval, CONFIRMED));
      var bound := c.(intent := confirmed, operation := operation);
      var activation := [ActivatesAuthority(bound, approval.mandateId)];
      if !ActivateGuard(bound, approval.mandateId) || !env.activates then Fails(c, activation)
      else
        var (purchase, calls) := PurchaseTool(bound, env.purchase);
        var events := activation + [RequestsPurchase(bound)] + calls;
        if purchase.None? then Fails(c, events)
        else
          match purchase.value
          case Stale =>
            Completes(c, env, Conversation(READY_TO_SEARCH, confirmed.(selectedOffer := None, confirmation := None), [], EMPTY_OPERATION),
                      events, None)
          case Refused(id) =>
            Completes(c, env, Conversation(FAILED, confirmed, offers, operation.(authorizationId := id, receiptId := None, pending := None)),
                      events, None)
          case Bought(id, receipt) =>
            Completes(c, env,
              Conversation(COMPLETED, confirmed, offers, operation.(authorizationId := Some(id), receiptId := Some(receipt), pending := None)),
              events, None)
  }

  /** A search with a complete, valid intent. */
  function Searches(tools: Tools, c: Conversation, env: Env, intent: Intent, operation: Operation): TurnResult
    requires Complete(intent.fields)
  {
    if env.search.None? then Fails(c, [])
    else
      var offers := Filter(env.search.value, (o: Offer) => Matches(intent.fields, o));
      if offers == [] then Finishes(c, env, Conversation(READY_TO_SEARCH, intent, [], operation))
      else
        var selected := SelectPreferred(env.collate, offers);
        if tools.checkout then PrepareApproval(c, env, intent, selected)
        else Finishes(c, env, Conversation(AWAITING_OFFER_SELECTION, intent, [selected], operation))
  }

  /** The turn once the intent is complete and valid. */
  function Continues(tools: Tools, c: Conversation, env: Env, proposal: Proposal, intent: Intent, offers: seq<Offer>,
                     operation: Operation): TurnResult
    requires Complete(intent.fields)
  {
    if c.state == COMPLETED then
      if proposal.action in {GET_RECEIPT, GET_AUDIT_TIMELINE} && !env.reading then Fails(c, [])
      else Finishes(c, env, Conversation(COMPLETED, intent, offers, operation))
    else if c.state == AWAITING_AUTHORITY_CONFIRMATION && operation.pending.Some? && proposal.confirmation == Some(DENY) then
      Denies(c, env, intent, operation.pending.value)
    else if c.state == AWAITING_AUTHORITY_CONFIRMATION && operation.pending.Some? && proposal.confirmation == Some(CONFIRM) then
      Confirms(tools, c, env, intent, offers, operation, operation.pending.value)
    else if c.state == AWAITING_OFFER_SELECTION && proposal.selectedOffer.Some? then
      var selected := FindOffer(offers, proposal.selectedOffer);
      if selected.None? then
        Finishes(c, env, Conversation(AWAITING_OFFER_SELECTION, intent.(selectedOffer := None), offers, operation))
      else if tools.checkout then PrepareApproval(c, env, intent, selected.value)
      else Fails(c, [])
    else if c.state == AWAITING_AUTHORITY_CONFIRMATION then
      if operation.pending.None? then
        Finishes(c, env, Conversation(READY_TO_SEARCH, intent.(selectedOffer := None), [], EMPTY_OPERATION))
      else Finishes(c, env, Conversation(AWAITING_AUTHORITY_CONFIRMATION, intent, offers, operation))
    else if c.state == AWAITING_OFFER_SELECTION then
      Finishes(c, env, Conversation(AWAITING_OFFER_SELECTION, intent, offers, operation))
    else Searches(tools, c, env, intent, operation)
  }

  /** The intent the turn works on: only an offer selection may name another offer. */
  function WorkingIntent(c: Conversation, a: Applied): Intent {
    if c.state != AWAITING_OFFER_SELECTION then a.intent.(selectedOffer := c.intent.selectedOffer) else a.intent
  }

  function Turn(tools: Tools, c: Conversation, env: Env): TurnResult {
    match env.runtime
    case Unavailable => Fails(c, [])
    case InvalidOutput => Finishes(c, env, c)
    case Proposed(raw) =>
      var proposal := WithConventions(c.intent.fields, raw, env.extracted);
      var a := Apply(c.intent, proposal, env.now);
      var intent := WorkingIntent(c, a);
      var offers := if a.invalidatesDownstream then [] else c.offers;
      var operation := if a.invalidatesDownstream then EMPTY_OPERATION else c.operation;
      if !Complete(intent.fields) || a.invalid != {} then Finishes(c, env, Conversation(COLLECTING, intent, offers, operation))
      else Continues(tools, c, env, proposal, intent, offers, operation)
  }
}
