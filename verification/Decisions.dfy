/** What becomes of a customer's decision: the turn that hears it, what the conversation remembers of it, and
    on what a remembered decision rests (travelbot/service.ts). */
module Decisions {
  import opened Common
  import opened AuditEvents
  import opened TravelPolicy
  import opened TravelBot
  import opened TravelRuns
  import opened TravelLimits

  /** A message that repeats what is known, before the departure date. */
  predicate Plain(c: Conversation, env: Env) {
    env.runtime.Proposed? && Repeats(c.intent.fields, env.runtime.proposal) && !Lapsed(c.intent.fields, env.now)
  }

  function NoOperation(): Operation { Operation(None, None, None, None, None, None) }

  function Decided(a: Approval, decision: Settlement): Option<Confirmation> {
    Some(Confirmation(a.approvalId, a.merchantId, a.checkoutHash, a.amount, a.mandateId, decision))
  }

  /** The message reaches the branches of a waiting conversation with the intent it met. */
  lemma PlainMessage(c: Conversation, env: Env, b: Binding)
    requires c.state == AWAITING_AUTHORITY_CONFIRMATION && BoundTo(c, b) && Plain(c, env)
    ensures var p := WithConventions(c.intent.fields, env.runtime.proposal, env.extracted);
      && p.confirmation == env.runtime.proposal.confirmation
      && Complete(c.intent.fields)
      && Turn(CONFIGURED, c, env) == Continues(CONFIGURED, c, env, p, c.intent, c.offers, c.operation)
  {
    hide WithConventions, Merged, Changed, Lapsed, SameAirports, Rejected, Continues, Repeats, Matches;
    var raw := env.runtime.proposal;
    ConventionsOnComplete(c.intent.fields, raw, env.extracted);
    PassesUntouched(c.intent, raw, env.extracted, env.now);
    var a := Apply(c.intent, WithConventions(c.intent.fields, raw, env.extracted), env.now);
    assert Untouched(c.intent, a);
    assert WorkingIntent(c, a) == c.intent;
  }

  lemma DenyTurn(c: Conversation, env: Env, b: Binding)
    requires c.state == AWAITING_AUTHORITY_CONFIRMATION && BoundTo(c, b) && Plain(c, env)
    requires env.runtime.proposal.confirmation == Some(DENY)
    ensures Turn(CONFIGURED, c, env) ==
      if env.resumes && env.persists then
        TurnResult(true,
          Conversation(COLLECTING,
            Intent(c.intent.fields, None, Decided(Approval(b.approvalId, b.merchantId, b.checkoutHash, b.amount, b.mandateId), DENIED)),
            [], NoOperation()),
          [])
      else TurnResult(false, c, [])
  {
    hide Turn, Plain, WithConventions, Matches;
    PlainMessage(c, env, b);
  }

  /** A refusal, for every reachable waiting conversation: nothing is done outside, and once it is stored the
      conversation collects again, without offer, selection or operation, and remembers that this very approval
      was denied. */
  lemma DenialExactly(envs: seq<Env>, env: Env)
    requires var c := RunTurns(CREATED, envs).conversation;
      c.state == AWAITING_AUTHORITY_CONFIRMATION && Plain(c, env) && env.runtime.proposal.confirmation == Some(DENY)
    ensures var c := RunTurns(CREATED, envs).conversation;
      && c.operation.pending.Some?
      && Turn(CONFIGURED, c, env) ==
        if env.resumes && env.persists then
          TurnResult(true,
            Conversation(COLLECTING, Intent(c.intent.fields, None, Decided(c.operation.pending.value, DENIED)), [], NoOperation()), [])
        else TurnResult(false, c, [])
  {
    hide Turn, RunTurns, Plain, TurnInv, BoundTo;
    CreatedInv();
    RunKeeps(CREATED, envs);
    var s := RunTurns(CREATED, envs);
    WaitingIsBound(s.conversation, LastPersisted(s.trace));
    BoundParts(s.conversation, LastPersisted(s.trace).value);
    DenyTurn(s.conversation, env, LastPersisted(s.trace).value);
  }

  /** The conversation after a confirmation that the ports answered this way; None when the turn fails. */
  function AfterConfirmation(c: Conversation, a: Approval, p: PurchaseAnswers): Option<Conversation> {
    var confirmed := c.intent.(confirmation := Decided(a, CONFIRMED));
    if p.checkout.None? then None
    else if Some(p.checkout.value.checkoutId) != c.operation.checkoutId
         || p.checkout.value.checkoutHash != a.checkoutHash || p.checkout.value.total != a.amount then
      Some(Conversation(READY_TO_SEARCH, Intent(c.intent.fields, None, None), [], NoOperation()))
    else if !p.mandateActive || p.decision.None? then None
    else if p.decision.value.None? then
      Some(Conversation(FAILED, confirmed, c.offers, c.operation.(pending := None, authorizationId := None, receiptId := None)))
    else if p.payment.None? then None
    else if p.payment.value != APPROVED then
      Some(Conversation(FAILED, confirmed, c.offers, c.operation.(pending := None, authorizationId := p.decision.value, receiptId := None)))
    else if p.receipt.None? || p.receipt.value.None? then None
    else
      Some(Conversation(COMPLETED, confirmed, c.offers,
                        c.operation.(pending := None, authorizationId := p.decision.value, receiptId := p.receipt.value)))
  }

  lemma ConfirmTurn(c: Conversation, env: Env, b: Binding)
    requires c.state == AWAITING_AUTHORITY_CONFIRMATION && BoundTo(c, b) && Plain(c, env)
    requires env.runtime.proposal.confirmation == Some(CONFIRM)
    ensures var after := AfterConfirmation(c, Approval(b.approvalId, b.merchantId, b.checkoutHash, b.amount, b.mandateId), env.purchase);
      var r := Turn(CONFIGURED, c, env);
      && r.completed == (env.resumes && env.activates && env.persists && after.Some?)
      && r.conversation == if r.completed then after.value else c
  {
    hide Turn, Plain, WithConventions, Matches, BoundTo, PurchaseGuard, ActivateGuard, SameAirports, FindOffer;
    PlainMessage(c, env, b);
    BoundParts(c, b);
    BoundView(c, b);
    BoundGuards(c, c.intent, b);
    assert c.(intent := c.intent.(confirmation := Confirm(c.operation.pending.value, CONFIRMED)), operation := c.operation)
        == c.(intent := c.intent.(confirmation := Confirm(c.operation.pending.value, CONFIRMED)));
  }

  /** A confirmation, for every reachable waiting conversation and all answers of the ports: when the turn is
      stored, and the conversation it then leaves. */
  lemma ConfirmationExactly(envs: seq<Env>, env: Env)
    requires var c := RunTurns(CREATED, envs).conversation;
      c.state == AWAITING_AUTHORITY_CONFIRMATION && Plain(c, env) && env.runtime.proposal.confirmation == Some(CONFIRM)
    ensures var c := RunTurns(CREATED, envs).conversation;
      && c.operation.pending.Some?
      && var after, r := AfterConfirmation(c, c.operation.pending.value, env.purchase), Turn(CONFIGURED, c, env);
      && r.completed == (env.resumes && env.activates && env.persists && after.Some?)
      && r.conversation == if r.completed then after.value else c
  {
    hide Turn, RunTurns, Plain, TurnInv, BoundTo, AfterConfirmation;
    CreatedInv();
    RunKeeps(CREATED, envs);
    var s := RunTurns(CREATED, envs);
    WaitingIsBound(s.conversation, LastPersisted(s.trace));
    BoundParts(s.conversation, LastPersisted(s.trace).value);
    ConfirmTurn(s.conversation, env, LastPersisted(s.trace).value);
  }

  /** A message that decides nothing, or one that is not plain, whatever it says about the approval. */
  lemma UndecidedTurn(c: Conversation, env: Env, b: Binding)
    requires c.state == AWAITING_AUTHORITY_CONFIRMATION && BoundTo(c, b) && env.runtime.Proposed?
    requires Plain(c, env) ==> env.runtime.proposal.confirmation.None?
    ensures var raw := env.runtime.proposal;
      var stops, changed := StopsKnown(c.intent.fields, raw, env.now), Changed(c.intent.fields, raw) != {};
      var merged := Merged(c.intent.fields, raw);
      Turn(CONFIGURED, c, env) ==
        if !env.persists then TurnResult(false, c, [])
        else if stops then
          TurnResult(true,
            Conversation(COLLECTING, c.intent.(fields := merged - Rejected(merged, env.now)),
                         if changed then [] else c.offers, if changed then NoOperation() else c.operation), [])
        else if changed then
          TurnResult(true, Conversation(READY_TO_SEARCH, Intent(merged, None, c.intent.confirmation), [], NoOperation()), [])
        else TurnResult(true, c, [])
  {
    hide WithConventions, Merged, Changed, Lapsed, SameAirports, Rejected, Stops, StopsKnown, BoundTo, Repeats, DoubtsMentioned;
    var raw := env.runtime.proposal;
    BoundParts(c, b);
    KnownIntent(c.intent.fields, raw, env.extracted, env.now);
    StopsExactly(c.intent, WithConventions(c.intent.fields, raw, env.extracted), env.now);
    PlainExactly(c, env, b);
    if Changed(c.intent.fields, raw) == {} { UnchangedMerge(c.intent.fields, raw); }
  }

  lemma PlainExactly(c: Conversation, env: Env, b: Binding)
    requires BoundTo(c, b) && env.runtime.Proposed?
    ensures Plain(c, env) <==>
      !StopsKnown(c.intent.fields, env.runtime.proposal, env.now) && Changed(c.intent.fields, env.runtime.proposal) == {}
  {
    hide WithConventions, Merged, Changed, Lapsed, SameAirports, Rejected, Stops, StopsKnown, BoundTo, Repeats;
    var raw := env.runtime.proposal;
    var p := WithConventions(c.intent.fields, raw, env.extracted);
    BoundParts(c, b);
    KnownIntent(c.intent.fields, raw, env.extracted, env.now);
    StopsExactly(c.intent, p, env.now);
    PassesUntouched(c.intent, raw, env.extracted, env.now);
    if Changed(c.intent.fields, raw) == {} { UnchangedMerge(c.intent.fields, raw); }
  }

  // ---------- What a remembered decision rests on ----------

  lemma SearchKeepsDecision(c: Conversation, env: Env, intent: Intent, operation: Operation)
    requires Complete(intent.fields) && intent.confirmation == c.intent.confirmation
    ensures Searches(CONFIGURED, c, env, intent, operation).conversation.intent.confirmation == c.intent.confirmation
  {
    hide Matches, CheckoutGuard;
  }

  lemma ElsewhereKeepsDecision(c: Conversation, env: Env)
    requires c.state !in {AWAITING_AUTHORITY_CONFIRMATION, AWAITING_OFFER_SELECTION}
    ensures Turn(CONFIGURED, c, env).conversation.intent.confirmation == c.intent.confirmation
  {
    hide WithConventions, Merged, Changed, Rejected, Searches, Complete;
    if env.runtime.Proposed? {
      var a := Apply(c.intent, WithConventions(c.intent.fields, env.runtime.proposal, env.extracted), env.now);
      var intent := WorkingIntent(c, a);
      if Complete(intent.fields) {
        SearchKeepsDecision(c, env, intent, c.operation);
        SearchKeepsDecision(c, env, intent, EMPTY_OPERATION);
      }
    }
  }

  /** The message with which the customer decided on a pending approval. */
  ghost predicate Says(c: Conversation, env: Env, d: Confirmation) {
    && c.state == AWAITING_AUTHORITY_CONFIRMATION && Plain(c, env)
    && c.operation.pending == Some(Approval(d.approvalId, d.merchantId, d.checkoutHash, d.amount, d.mandateId))
    && env.runtime.proposal.confirmation == Some(if d.decision == CONFIRMED then CONFIRM else DENY)
  }

  predicate AsksFor(e: Event, d: Confirmation) {
    e.RequestsPurchase? && e.view.operation.pending == Some(Approval(d.approvalId, d.merchantId, d.checkoutHash, d.amount, d.mandateId))
  }

  ghost predicate Asked(r: TurnResult, d: Confirmation) {
    exists i :: 0 <= i < |r.events| && AsksFor(r.events[i], d)
  }

  /** A turn leaves the remembered decision alone, forgets it, or remembers the one that its message made. */
  lemma TurnDecides(c: Conversation, env: Env, bound: Option<Binding>)
    requires TurnInv(c, bound)
    ensures var r := Turn(CONFIGURED, c, env);
      var d := r.conversation.intent.confirmation;
      d.None? || d == c.intent.confirmation || (Says(c, env, d.value) && (d.value.decision == CONFIRMED ==> Asked(r, d.value)))
  {
    hide Turn, Plain, BoundTo, StopsKnown, Changed, Merged, Asked;
    if c.state == AWAITING_AUTHORITY_CONFIRMATION {
      BoundParts(c, bound.value);
      if !env.runtime.Proposed? {
        IdleTurn(c, env);
      } else if Plain(c, env) && env.runtime.proposal.confirmation == Some(DENY) {
        DenyTurn(c, env, bound.value);
      } else if Plain(c, env) && env.runtime.proposal.confirmation == Some(CONFIRM) {
        ConfirmTurn(c, env, bound.value);
        ConfirmAsks(c, env, bound.value);
      } else {
        DecisionCases(env.runtime.proposal);
        UndecidedTurn(c, env, bound.value);
      }
    } else {
      NotSelecting(c, bound);
      ElsewhereKeepsDecision(c, env);
    }
  }

  lemma DecisionCases(raw: Proposal)
    ensures raw.confirmation in {None, Some(CONFIRM), Some(DENY)}
  {
    if raw.confirmation.Some? {
      match raw.confirmation.value
      case CONFIRM =>
      case DENY =>
    }
  }

  lemma IdleTurn(c: Conversation, env: Env)
    requires !env.runtime.Proposed?
    ensures Turn(CONFIGURED, c, env).conversation == c
  {
  }

  lemma ConfirmAsks(c: Conversation, env: Env, b: Binding)
    requires c.state == AWAITING_AUTHORITY_CONFIRMATION && BoundTo(c, b) && Plain(c, env)
    requires env.runtime.proposal.confirmation == Some(CONFIRM)
    ensures var d := Confirmation(b.approvalId, b.merchantId, b.checkoutHash, b.amount, b.mandateId, CONFIRMED);
      Turn(CONFIGURED, c, env).completed ==> Asked(Turn(CONFIGURED, c, env), d)
  {
    hide Turn, Plain, WithConventions, Matches, BoundTo, PurchaseGuard, ActivateGuard, SameAirports, FindOffer, PurchaseTool;
    PlainMessage(c, env, b);
    BoundParts(c, b);
    BoundGuards(c, c.intent, b);
    var r := Turn(CONFIGURED, c, env);
    if r.completed { assert AsksFor(r.events[1], Confirmation(b.approvalId, b.merchantId, b.checkoutHash, b.amount, b.mandateId, CONFIRMED)); }
  }

  lemma {:induction false} RunLast(s: Session, envs: seq<Env>)
    requires envs != []
    ensures var before, env := RunTurns(s, envs[..|envs| - 1]), envs[|envs| - 1];
      var r := Turn(CONFIGURED, before.conversation, env);
      RunTurns(s, envs) == Session(r.conversation, before.trace + r.events)
    decreases |envs|
  {
    hide Turn;
    if |envs| == 1 {
      assert envs[..0] == [] && envs[1..] == [];
    } else {
      var r := Turn(CONFIGURED, s.conversation, envs[0]);
      RunLast(Session(r.conversation, s.trace + r.events), envs[1..]);
      assert envs[1..][..|envs| - 2] == envs[..|envs| - 1][1..];
    }
  }

  /** Message `k` made the decision, on the approval that was pending then. */
  ghost predicate SaidAt(envs: seq<Env>, k: nat, d: Confirmation) {
    k < |envs| && Says(RunTurns(CREATED, envs[..k]).conversation, envs[k], d)
  }

  ghost predicate AskedInTrace(trace: seq<Event>, d: Confirmation) {
    exists i :: 0 <= i < |trace| && AsksFor(trace[i], d)
  }

  /** Over every conversation a remembered decision was made: some message said it, plainly, of the very approval
      that was pending then; and for one that is remembered as CONFIRMED the purchase was requested. */
  lemma {:induction false} DecisionsAreReal(envs: seq<Env>)
    ensures var s := RunTurns(CREATED, envs);
      var d := s.conversation.intent.confirmation;
      d.Some? ==>
        && (exists k: nat :: SaidAt(envs, k, d.value))
        && (d.value.decision == CONFIRMED ==> AskedInTrace(s.trace, d.value))
    decreases |envs|
  {
    hide Says, Turn, Asked;
    if envs == [] {
    } else {
      var init, env := envs[..|envs| - 1], envs[|envs| - 1];
      var before := RunTurns(CREATED, init);
      var r := Turn(CONFIGURED, before.conversation, env);
      RunLast(CREATED, envs);
      DecisionsAreReal(init);
      CreatedInv();
      RunKeeps(CREATED, init);
      TurnDecides(before.conversation, env, LastPersisted(before.trace));
      var d := r.conversation.intent.confirmation;
      if d.Some? && d == before.conversation.intent.confirmation {
        SaidEarlier(init, envs, d.value);
        AskedEarlier(before.trace, r, d.value);
      } else if d.Some? {
        assert SaidAt(envs, |envs| - 1, d.value);
        AskedEarlier(before.trace, r, d.value);
      }
    }
  }

  lemma SaidEarlier(init: seq<Env>, envs: seq<Env>, d: Confirmation)
    requires init <= envs && exists k: nat :: SaidAt(init, k, d)
    ensures exists k: nat :: SaidAt(envs, k, d)
  {
    hide Says, RunTurns;
    var k: nat :| SaidAt(init, k, d);
    assert init[..k] == envs[..k];
    assert SaidAt(envs, k, d);
  }

  lemma AskedEarlier(trace: seq<Event>, r: TurnResult, d: Confirmation)
    ensures AskedInTrace(trace, d) || Asked(r, d) ==> AskedInTrace(trace + r.events, d)
  {
    if i :| 0 <= i < |trace| && AsksFor(trace[i], d) { assert (trace + r.events)[i] == trace[i]; }
    if i :| 0 <= i < |r.events| && AsksFor(r.events[i], d) { assert (trace + r.events)[|trace| + i] == r.events[i]; }
  }
}
