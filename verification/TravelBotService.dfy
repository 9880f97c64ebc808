/** `postMessage` as it runs: the state, the offers and the operation are reassigned branch by branch and
    written back once (travelbot/service.ts). */
module TravelBotServices {
  import opened Common
  import opened AuditEvents
  import opened TravelPolicy
  import opened TravelBot

  class TravelBotService {
    const tools: Tools
    var conversation: Conversation

    constructor (tools: Tools, conversation: Conversation)
      ensures this.tools == tools && this.conversation == conversation
    {
      this.tools := tools;
      this.conversation := conversation;
    }

    /** `completeTurn` of the repository: all or nothing. */
    method CompleteTurn(env: Env, next: Conversation) returns (completed: bool)
      modifies this`conversation
      ensures completed == env.persists
      ensures conversation == if env.persists then next else old(conversation)
    {
      if env.persists { conversation := next; }
      return env.persists;
    }

    method PrepareOfferApproval(env: Env, working: Intent, selected: Offer) returns (completed: bool, events: seq<Event>)
      modifies this`conversation
      ensures TurnResult(completed, conversation, events) == PrepareApproval(old(conversation), env, working, selected)
    {
      hide CheckoutGuard;
      var intent := working.(selectedOffer := Some(selected.offerId));
      var offers := [selected];
      var current := Conversation(AWAITING_OFFER_SELECTION, intent, offers, conversation.operation);
      events := [CreatesCheckout(current, selected)];
      if !CheckoutGuard(current) || env.checkout.None? { return false, events; }
      var checkout := env.checkout.value;
      events := events + [PreparesAuthority(current, checkout)];
      if env.mandateId.None? || env.preparation == PreparationThrows { return false, events; }
      var state, operation: Operation;
      var created: Option<Binding> := None;
      if env.preparation == NotPrepared {
        intent := intent.(selectedOffer := None);
        operation := EMPTY_OPERATION;
        offers := [];
        state := READY_TO_SEARCH;
      } else {
        operation := Operation(Some(checkout.checkoutId), Some(checkout.checkoutHash), env.mandateId, None, None,
          Some(Approval(env.approvalId, checkout.merchantId, checkout.checkoutHash, checkout.total, env.mandateId.value)));
        state := AWAITING_AUTHORITY_CONFIRMATION;
        created := Some(Binding(env.approvalId, intent.fields, selected, checkout.checkoutId, checkout.checkoutHash,
                                checkout.total, checkout.merchantId, env.mandateId.value));
      }
      completed := CompleteTurn(env, Conversation(state, intent, offers, operation));
      if completed && created.Some? { events := events + [Persists(created.value)]; }
    }

    /** `requestPurchase` of the application tools: each port is called only when the one before answered. */
    method RequestPurchase(view: Conversation, answers: PurchaseAnswers) returns (r: Option<Purchase>, calls: seq<Event>)
      ensures (r, calls) == PurchaseTool(view, answers)
      ensures calls != [] ==> calls[0].Verifies? && HeldCheckout(view, calls[0].checkout)
      ensures forall e :: e in calls && e.Pays? ==> |calls| == 2 && e == calls[1]
      ensures r.Some? && r.value.Bought? ==> Pays(r.value.authorizationId) in calls && answers.payment == Some(APPROVED)
    {
      PurchaseToolExactly(view, answers);
      calls := [];
      if !PurchaseGuard(view) { return None, calls; }
      var operation, approval := view.operation, view.operation.pending.value;
      if answers.checkout.None? { return None, calls; }
      var checkout := answers.checkout.value;
      if Some(checkout.checkoutId) != operation.checkoutId || Some(checkout.checkoutHash) != operation.checkoutHash
         || checkout.total != approval.amount
      {
        return Some(Stale), calls;
      }
      if !answers.mandateActive { return None, calls; }
      calls := [Verifies(checkout, operation.mandateId.value)];
      if answers.decision.None? { return None, calls; }
      if answers.decision.value.None? { return Some(Refused(None)), calls; }
      var authorizationId := answers.decision.value.value;
      calls := calls + [Pays(authorizationId)];
      if answers.payment.None? { return None, calls; }
      if answers.payment.value != APPROVED { return Some(Refused(Some(authorizationId))), calls; }
      if answers.receipt.None? || answers.receipt.value.None? { return None, calls; }
      return Some(Bought(authorizationId, answers.receipt.value.value)), calls;
    }

    /** The branch that confirms: activate the mandate, request the purchase, read its answer. */
    method ConfirmPurchase(env: Env, working: Intent, bound: seq<Offer>, held: Operation)
      returns (completed: bool, events: seq<Event>)
      requires held.pending.Some?
      modifies this`conversation
      ensures TurnResult(completed, conversation, events)
           == Confirms(tools, old(conversation), env, working, bound, held, held.pending.value)
    {
      hide ActivateGuard, PurchaseTool;
      var approval := held.pending.value;
      if !tools.purchase || !env.resumes { return false, []; }
      var intent := working.(confirmation := Confirm(approval, CONFIRMED));
      var view := conversation.(intent := intent, operation := held);
      events := [ActivatesAuthority(view, approval.mandateId)];
      if !ActivateGuard(view, approval.mandateId) || !env.activates { return false, events; }
      var purchase, calls := RequestPurchase(view, env.purchase);
      events := events + [RequestsPurchase(view)] + calls;
      if purchase.None? { return false, events; }
      var state, offers, operation := FAILED, bound, held;
      match purchase.value {
        case Stale =>
          intent := intent.(selectedOffer := None, confirmation := None);
          offers := [];
          operation := EMPTY_OPERATION;
          state := READY_TO_SEARCH;
        case Refused(id) =>
          operation := operation.(authorizationId := id, receiptId := None, pending := None);
        case Bought(id, receipt) =>
          state := COMPLETED;
          operation := operation.(authorizationId := Some(id), receiptId := Some(receipt), pending := None);
      }
      completed := CompleteTurn(env, Conversation(state, intent, offers, operation));
    }

    /** The search branch. */
    method Search(env: Env, intent: Intent, operation: Operation) returns (completed: bool, events: seq<Event>)
      requires Complete(intent.fields)
      modifies this`conversation
      ensures TurnResult(completed, conversation, events) == Searches(tools, old(conversation), env, intent, operation)
    {
      hide PrepareApproval, Matches;
      if env.search.None? { return false, []; }
      var offers := Filter(env.search.value, (o: Offer) => Matches(intent.fields, o));
      if |offers| > 0 {
        var selected := SelectPreferred(env.collate, offers);
        if tools.checkout {
          completed, events := PrepareOfferApproval(env, intent, selected);
          return;
        }
        completed := CompleteTurn(env, Conversation(AWAITING_OFFER_SELECTION, intent, [selected], operation));
        return completed, [];
      }
      completed := CompleteTurn(env, Conversation(READY_TO_SEARCH, intent, [], operation));
      return completed, [];
    }

    method PostMessage(env: Env) returns (completed: bool, events: seq<Event>)
      modifies this`conversation
      ensures TurnResult(completed, conversation, events) == Turn(tools, old(conversation), env)
    {
      hide Confirms, Searches, PrepareApproval, WithConventions, Apply, Complete;
      events := [];
      if env.runtime.Unavailable? { return false, []; }
      if env.runtime.InvalidOutput? {
        completed := CompleteTurn(env, conversation);
        return completed, [];
      }
      var proposal := ApplyConversationConventions(conversation.intent.fields, env.runtime.proposal, env.extracted);
      var applied := ApplyTravelIntentProposal(conversation.intent, proposal, env.now);
      var intent := applied.intent;
      if conversation.state != AWAITING_OFFER_SELECTION {
        intent := intent.(selectedOffer := conversation.intent.selectedOffer);
      }
      var state := COLLECTING;
      var offers := if applied.invalidatesDownstream then [] else conversation.offers;
      var operation := if applied.invalidatesDownstream then EMPTY_OPERATION else conversation.operation;
      if !Complete(intent.fields) || applied.invalid != {} {
        // Clarify: the state stays COLLECTING.
      } else if conversation.state == COMPLETED {
        state := COMPLETED;
        if proposal.action in {GET_RECEIPT, GET_AUDIT_TIMELINE} && !env.reading { return false, []; }
      } else if conversation.state == AWAITING_AUTHORITY_CONFIRMATION && operation.pending.Some? && proposal.confirmation.Some? {
        var approval := operation.pending.value;
        if proposal.confirmation == Some(DENY) {
          if !env.resumes { return false, []; }
          intent := intent.(confirmation := Confirm(approval, DENIED), selectedOffer := None);
          offers := [];
          operation := EMPTY_OPERATION;
        } else {
          assert proposal.confirmation.value.CONFIRM?;
          completed, events := ConfirmPurchase(env, intent, offers, operation);
          return;
        }
      } else if conversation.state == AWAITING_OFFER_SELECTION && proposal.selectedOffer.Some? {
        var selected := FindOffer(offers, proposal.selectedOffer);
        if selected.None? {
          intent := intent.(selectedOffer := None);
          state := AWAITING_OFFER_SELECTION;
        } else {
          if !tools.checkout { return false, []; }
          completed, events := PrepareOfferApproval(env, intent, selected.value);
          return;
        }
      } else if conversation.state == AWAITING_AUTHORITY_CONFIRMATION {
        if operation.pending.None? {
          intent := intent.(selectedOffer := None);
          offers := [];
          operation := EMPTY_OPERATION;
          state := READY_TO_SEARCH;
        } else {
          state := AWAITING_AUTHORITY_CONFIRMATION;
        }
      } else if conversation.state == AWAITING_OFFER_SELECTION {
        state := AWAITING_OFFER_SELECTION;
      } else {
        completed, events := Search(env, intent, operation);
        return;
      }
      completed := CompleteTurn(env, Conversation(state, intent, offers, operation));
    }
  }
}
