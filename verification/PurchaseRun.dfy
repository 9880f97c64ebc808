/** One run of conversation and rail together, from nothing to an order: a mandate is activated, the traveller
    asks for a trip and confirms, and the purchase tool reserves and pays on the rail. */
module PurchaseRun {
  import opened Common
  import opened AuditEvents
  import opened Rail
  import opened PaymentProcess
  import opened ApprovalToPayment
  import opened ForeignAgent
  import C = TravelRuns
  import L = TravelLimits
  import T = TravelBot
  import TravelPolicy

  /** While the confirmation is being worked on, its attempt is claimed, executed and persisted. */
  ghost function Paying(h: Hasher): seq<Step> { ForeignPurchase(h)[2..] }

  ghost function Buying(h: Hasher): seq<Move> {
    [OnRail(ForeignPurchase(h)[0]), Message(L.Asks(), ForeignReserve(), []), Message(L.Confirmed(), ForeignReserve(), Paying(h))]
  }

  /** The keys and hashes of this one request. */
  ghost predicate Derives(d: Derived) {
    d.CollisionFree() && d.verifyKey("approval") == "r" && d.request(ForeignReserve()) == ForeignReserve().requestHash
  }

  lemma AskingAsksNothing()
    ensures !AsksRail(T.Turn(C.CONFIGURED, T.CREATED_BODY, L.Asks()).events)
  {
    hide T.Turn, C.TurnInv, L.Asks;
    C.CreatedInv();
    var r := T.Turn(C.CONFIGURED, T.CREATED_BODY, L.Asks());
    C.TurnKeeps(T.CREATED_BODY, L.Asks(), None);
    forall i | 0 <= i < |r.events| ensures !r.events[i].Verifies? {
      assert C.Guarded(r.events[i], None);
    }
  }

  /** The conversation as the tools see it while the confirmation is worked on. */
  function Confirming(): T.Conversation {
    L.Waiting().(intent := L.Waiting().intent.(confirmation := T.Confirm(L.Pending(), TravelPolicy.CONFIRMED)))
  }

  function Asked(): seq<T.Event> {
    [T.ActivatesAuthority(Confirming(), "m"), T.RequestsPurchase(Confirming()), T.Verifies(L.Sold(), "m"), T.Pays("a")]
  }

  lemma ConfirmingAsks()
    ensures T.Turn(C.CONFIGURED, L.Waiting(), L.Confirmed()) == T.TurnResult(true, L.Bought(), Asked())
  {
    hide L.Noon, TravelPolicy.Lapsed, TravelPolicy.SameAirports, T.Turn, T.Confirms, L.KnownTrip, L.Confirmed, L.Bought;
    L.AheadInJanuary();
    L.TripAirports();
    L.ConfirmsPlainly();
    L.ConfirmingMessage(L.Waiting(), L.Confirmed(), L.Confirmed().runtime.proposal);
    ConfirmingEvents();
  }

  lemma ConfirmingEvents()
    ensures T.Confirms(C.CONFIGURED, L.Waiting(), L.Confirmed(), L.Waiting().intent, L.Waiting().offers, L.Waiting().operation, L.Pending())
         == T.TurnResult(true, L.Bought(), Asked())
  {
    hide L.Noon;
    assert T.FindOffer([L.Found()], Some("offer")).Some?;
  }

  lemma AskedForIt(d: Derived)
    requires Derives(d)
    ensures AsksRail(Asked()) && AskedWith(d, Asked(), ForeignReserve())
  {
    hide L.KnownTrip, L.Found;
    var events := Asked();
    assert events[1].RequestsPurchase? && events[2].Verifies?;
    assert events[1].view.operation.pending == Some(L.Pending());
  }

  // ---------- The rail ----------

  lemma {:induction false} RunOfThree(h: Hasher, s: System, x: Step, y: Step, z: Step)
    ensures Run(h, s, [x, y, z]) == Next(h, Next(h, Next(h, s, x), y), z)
  {
    hide Next;
    var t := Next(h, s, x);
    var u := Next(h, t, y);
    assert [x, y, z][1..] == [y, z] && [y, z][1..] == [z] && [z][1..] == [];
    assert Run(h, t, [y, z]) == Run(h, u, [z]) == Run(h, Next(h, u, z), []);
  }

  /** The rail after the message is the rail of the whole purchase. */
  lemma RailOfPurchase(h: Hasher)
    requires h.CollisionFree()
    ensures Next(h, Fresh(ForeignAgents(), Cards()), ForeignPurchase(h)[0]) == System(Base(h), map[], [])
    ensures RailAfter(h, System(Base(h), map[], []), ForeignReserve(), Paying(h))
         == Run(h, Fresh(ForeignAgents(), Cards()), ForeignPurchase(h))
  {
    hide Next;
    var steps := ForeignPurchase(h);
    ForeignMandateStep(h);
    FiveSteps(h, Fresh(ForeignAgents(), Cards()), steps);
    RunOfThree(h, Next(h, System(Base(h), map[], []), steps[1]), steps[2], steps[3], steps[4]);
    assert Paying(h) == [steps[2], steps[3], steps[4]];
  }

  lemma PurchaseHolds(h: Hasher)
    requires h.CollisionFree()
    ensures HoldsApproved(Run(h, Fresh(ForeignAgents(), Cards()), ForeignPurchase(h)).db, "a")
  {
    hide Run, ForeignPurchase, Claim, HistoryKept;
    ForeignRun(h);
    TablesAgree(h, ForeignAgents(), Cards(), ForeignPurchase(h), "a", ForeignClaim());
  }

  lemma RailAnswers(h: Hasher)
    requires h.CollisionFree()
    ensures Answered(h, System(Base(h), map[], []), Run(h, Fresh(ForeignAgents(), Cards()), ForeignPurchase(h)), ForeignReserve(),
                     L.Confirmed().purchase)
  {
    ForeignReserved(h);
    PurchaseHolds(h);
    hide Reserve, ListsStale, Run, HoldsApproved;
  }

  // ---------- Both together ----------

  lemma {:induction false} PlayThree(h: Hasher, d: Derived, j: Joint, x: Move, y: Move, z: Move)
    ensures Play(h, d, j, [x, y, z]) == Moved(h, d, Moved(h, d, Moved(h, d, j, x), y), z)
  {
    hide Moved;
    var k := Moved(h, d, j, x);
    var l := Moved(h, d, k, y);
    assert [x, y, z][1..] == [y, z] && [y, z][1..] == [z] && [z][1..] == [];
    assert Play(h, d, k, [y, z]) == Play(h, d, l, [z]) == Play(h, d, Moved(h, d, l, z), []);
  }

  ghost function Activated(h: Hasher): Joint {
    Joint(C.CREATED, System(Base(h), map[], []), [])
  }

  ghost function WaitingFor(h: Hasher): Joint {
    Joint(C.Session(L.Waiting(), T.Turn(C.CONFIGURED, T.CREATED_BODY, L.Asks()).events), System(Base(h), map[], []), [])
  }

  lemma FirstMoves(h: Hasher, d: Derived)
    requires h.CollisionFree()
    ensures Moved(h, d, Begin(ForeignAgents(), Cards()), Buying(h)[0]) == Activated(h)
    ensures Moved(h, d, Activated(h), Buying(h)[1]) == WaitingFor(h)
  {
    hide Next, T.Turn, L.Waiting, L.Asks, AsksRail, C.RunTurns;
    RailOfPurchase(h);
    AskingAsksNothing();
    L.WaitsThenBuys();
    L.TwoTurns(L.Asks(), L.Asks());
    var events := T.Turn(C.CONFIGURED, T.CREATED_BODY, L.Asks()).events;
    assert [] + events == events;
  }

  lemma LastMove(h: Hasher, d: Derived)
    requires h.CollisionFree() && Derives(d)
    ensures var j, was := Moved(h, d, WaitingFor(h), Buying(h)[2]), WaitingFor(h);
      && j.session.conversation == L.Bought()
      && j.rail == Run(h, Fresh(ForeignAgents(), Cards()), ForeignPurchase(h))
      && j.paid == PaidBy(C.LastPersisted(was.session.trace), L.Confirmed().purchase)
  {
    hide Next, Run, T.Turn, L.Waiting, L.Bought, AsksRail, AskedWith, Answered, RailAfter, Asked, L.Noon, C.LastPersisted;
    RailOfPurchase(h);
    RailAnswers(h);
    ConfirmingAsks();
    AskedForIt(d);
    assert AllHashed(d, Paying(h));
    var paid := PaidBy(C.LastPersisted(WaitingFor(h).session.trace), L.Confirmed().purchase);
    assert [] + paid == paid;
  }

  /** The traveller's conversation is completed by its one payment, and the order it stands for is there. (The
      mandate's agent being somebody else's, it is the order of `ForeignAgentLosesDispute`.) */
  lemma ConversationBuys(h: Hasher, d: Derived)
    requires h.CollisionFree() && Derives(d)
    ensures var j := Play(h, d, Begin(ForeignAgents(), Cards()), Buying(h));
      && j.session.conversation == L.Bought()
      && |j.paid| == 1 && j.paid[0].authorizationId == "a" && OrderedFor(j.rail.db, j.paid[0])
      && j.rail == Run(h, Fresh(ForeignAgents(), Cards()), ForeignPurchase(h))
  {
    hide Play, Moved, JointInv, Run, HistoryKept, L.Waiting, L.Noon, L.Bought, C.LastPersisted, OrderedFor, PaidFor, HoldsApproved, Buying;
    var begin, moves := Begin(ForeignAgents(), Cards()), Buying(h);
    var j := Play(h, d, begin, moves);
    ThreeMoves(h);
    PlayThree(h, d, begin, moves[0], moves[1], moves[2]);
    FirstMoves(h, d);
    LastMove(h, d);
    BeginInv(h, d, ForeignAgents(), Cards());
    MoveKeeps(h, d, begin, moves[0]);
    MoveKeeps(h, d, Activated(h), moves[1]);
    PlayKeeps(h, d, begin, moves);
    WaitingHasApproval(h, d);
    PurchaseHolds(h);
    JointHistory(h, d, j);
    PaidOf(h, d, j, j.paid[0]);
    OrderForGood(h, d, j, j, j.paid[0]);
  }

  lemma ThreeMoves(h: Hasher)
    ensures var moves := Buying(h); |moves| == 3 && moves == [moves[0], moves[1], moves[2]]
  {
  }

  lemma WaitingHasApproval(h: Hasher, d: Derived)
    requires JointInv(h, d, WaitingFor(h))
    ensures PaidBy(C.LastPersisted(WaitingFor(h).session.trace), L.Confirmed().purchase)
         == [Payment(C.LastPersisted(WaitingFor(h).session.trace).value, "a")]
  {
    hide T.Turn, C.LastPersisted, C.BoundTo, L.Noon;
    C.WaitingIsBound(WaitingFor(h).session.conversation, C.LastPersisted(WaitingFor(h).session.trace));
  }

  lemma PaidOf(h: Hasher, d: Derived, j: Joint, p: Payment)
    requires JointInv(h, d, j) && p in j.paid
    ensures PaidFor(d, j.rail.db, p)
  {
    hide PaidFor, C.SessionInv, Inv, Keyed;
  }
}
