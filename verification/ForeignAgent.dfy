/** A purchase by an agent that another principal owns alone: it is reserved, paid and confirmed like any
    other, and its dispute is lost. The whole run is worked out on concrete rows. */
module ForeignAgent {
  import opened Common
  import opened AuditEvents
  import opened Ledger
  import opened PaymentResults
  import opened Rail
  import opened RailInvariant
  import opened ReserveInvariant
  import opened Disputes
  import P = PaymentProcess
  import M = Mandates

  /** Appending to a ledger that has neither the key nor the event id. */
  lemma LogSucceeds(h: Hasher, audit: seq<AuditRow>, input: AppendInput, eventId: Id)
    requires h.CollisionFree() && LedgerInv(h, audit)
    requires Replay(audit, input).None? && !IdTaken(audit, eventId)
    ensures var row := NextRow(h, audit, input, eventId);
      && Log(h, audit, input, eventId) == Ok(Logged(row.event, audit + [row]))
      && LedgerInv(h, audit + [row])
      && row.deduplicationKey == input.deduplicationKey && row.event.eventId == eventId
  {
    AppendOutcome(h, audit, input, eventId);
    NextRowKeepsInv(h, audit, input, eventId);
  }

  const PAYER: Id := "payer"
  const STRANGER: Id := "stranger"
  const PRICE := Money(100, "USD")

  function ForeignTerms(): MandateTerms {
    MandateTerms("m", PAYER, "agent", ["shop"], [], "", PRICE, PRICE, 1, 0, 1000, "card")
  }

  function ForeignMandate(h: Hasher): M.MandateRow {
    M.MandateRow(ForeignTerms(), M.ACTIVE, Some(h.terms(ForeignTerms())), Some("sig"), "k", Some("k"), None, Some(0), None)
  }

  function ForeignReserve(): ReserveInput {
    ReserveInput("a", "m", PAYER, "agent", ["shop"], "hash", PRICE, 1, 1000, "c",
                 CheckoutRow("shop", "hash", PRICE, "", 0, 1000), true, "", "corr", "r", "", 1, "e1", [])
  }

  function ForeignClaim(): ClaimInput { ClaimInput("a", "corr", 2, "t", "key", "e2") }

  function ForeignResult(): PaymentResult { Approved("a", PRICE, 3, "p", None) }

  /** One purchase by an agent that another principal owns alone, from mandate to order. */
  function ForeignPurchase(h: Hasher): seq<P.Step> {
    [P.MandateStep(map["m" := ForeignMandate(h)]), P.ReserveStep(ForeignReserve()), P.ClaimStep(0, ForeignClaim()),
     P.ExecuteStep(0, Some(ForeignResult())), P.PersistStep(0, 4, "e3", "e4")]
  }

  function ForeignAgents(): map<Id, AgentRow> { map["agent" := AgentRow(STRANGER, OWNER, true)] }

  function Cards(): map<Id, CredentialRow> { map["card" := CredentialRow(PAYER, "")] }

  function Authorization(status: AuthorizationStatus): AuthorizationRow {
    NewAuthorization(ForeignReserve(), ForeignTerms().expiresAt).(status := status)
  }

  ghost function Base(h: Hasher): Db {
    Db(map["m" := ForeignMandate(h)], ForeignAgents(), Cards(), map[], map[], map[], map[], [])
  }

  /** The audit rows of the reservation, the attempt, the approval and the order name different keys. */
  lemma KeysDiffer()
    ensures "verify:" + "r" != "payment-attempt:" + "t"
    ensures forall x: string :: "verify:" + "r" != "payment-result:" + x && "payment-attempt:" + "t" != "payment-result:" + x
    ensures "order:" + "a" != "verify:" + "r" && "order:" + "a" != "payment-attempt:" + "t"
    ensures forall x: string :: "order:" + "a" != "payment-result:" + x
  {
    assert ("verify:" + "r")[0] == 'v' && ("payment-attempt:" + "t")[0] == 'p' && ("order:" + "a")[0] == 'o';
    assert ("payment-attempt:" + "t")[8] == 'a';
    forall x: string
      ensures "verify:" + "r" != "payment-result:" + x && "payment-attempt:" + "t" != "payment-result:" + x
      ensures "order:" + "a" != "payment-result:" + x
    {
      assert ("payment-result:" + x)[0] == 'p' && ("payment-result:" + x)[8] == 'r';
    }
  }

  ghost function ReservedAudit(h: Hasher): AuditRow {
    NextRow(h, [], ReservedEvent(ForeignReserve(), ForeignTerms().expiresAt), "e1")
  }

  lemma ForeignReserved(h: Hasher)
    requires h.CollisionFree()
    ensures ListsStale(Base(h), ForeignReserve())
    ensures Reserve(h, Base(h), ForeignReserve()) ==
      (Ok("a"), Base(h).(checkouts := map["c" := ForeignReserve().checkout], authorizations := map["a" := Authorization(RESERVED)],
                         audit := [ReservedAudit(h)]))
    ensures LedgerInv(h, [ReservedAudit(h)])
  {
    var db, input := Base(h), ForeignReserve();
    EmptyLedger(h);
    LogSucceeds(h, [], ReservedEvent(input, ForeignTerms().expiresAt), "e1");
    assert M.Touch(M.Db(db.mandates, map[]), "m", 1).mandates == db.mandates;
    assert Allows(h, db, input);
    assert [] + [ReservedAudit(h)] == [ReservedAudit(h)];
  }

  ghost function ReservedDb(h: Hasher): Db {
    Base(h).(checkouts := map["c" := ForeignReserve().checkout], authorizations := map["a" := Authorization(RESERVED)],
             audit := [ReservedAudit(h)])
  }

  lemma ReservedRow(h: Hasher)
    ensures ReservedAudit(h).deduplicationKey == Some("verify:" + "r") && ReservedAudit(h).event.eventId == "e1"
  {
  }

  ghost function ClaimedDb(h: Hasher): Db {
    var db := ReservedDb(h);
    db.(authorizations := db.authorizations["a" := Authorization(PAYMENT_PENDING)],
        payments := db.payments["a" := NewPayment(ForeignClaim(), Authorization(RESERVED), "card")],
        audit := db.audit + [NextRow(h, db.audit, AttemptStarted(ForeignClaim(), Authorization(RESERVED)), "e2")])
  }

  lemma ForeignClaimed(h: Hasher)
    requires h.CollisionFree() && LedgerInv(h, ReservedDb(h).audit)
    ensures Claim(h, ReservedDb(h), ForeignClaim()) == (Ok(Claimed("t", "key", "a", PRICE)), ClaimedDb(h))
    ensures LedgerInv(h, ClaimedDb(h).audit)
    ensures TwoKeys(ClaimedDb(h).audit)
  {
    hide LedgerInv, Log, NextRow;
    KeysDiffer();
    ReservedRow(h);
    LogSucceeds(h, ReservedDb(h).audit, AttemptStarted(ForeignClaim(), Authorization(RESERVED)), "e2");
  }

  function ForeignPersist(): PersistInput { PersistInput("t", ForeignResult(), 4, "e3", "e4") }

  ghost predicate TwoKeys(audit: seq<AuditRow>) {
    && |audit| == 2 && audit[0].deduplicationKey == Some("verify:" + "r")
    && audit[1].deduplicationKey == Some("payment-attempt:" + "t")
    && audit[0].event.eventId == "e1" && audit[1].event.eventId == "e2"
  }

  ghost function ApprovedDb(h: Hasher): Db
    requires Log(h, ClaimedDb(h).audit,
                 ResultEvent("a", ClaimedDb(h).authorizations["a"], ClaimedDb(h).payments["a"], ForeignPersist()), "e3").Ok?
  {
    ResultWritten(h, ClaimedDb(h), "a", ForeignPersist())
  }

  ghost predicate SameDirectory(h: Hasher, db: Db) {
    "a" in db.orders && db.agents == ForeignAgents() && db.mandates == map["m" := ForeignMandate(h)]
  }

  lemma ForeignApproved(h: Hasher)
    requires h.CollisionFree() && LedgerInv(h, ClaimedDb(h).audit) && TwoKeys(ClaimedDb(h).audit)
    ensures Log(h, ClaimedDb(h).audit,
                ResultEvent("a", ClaimedDb(h).authorizations["a"], ClaimedDb(h).payments["a"], ForeignPersist()), "e3").Ok?
    ensures WriteResult(h, ClaimedDb(h), "a", ForeignPersist())
         == ApprovedOrder(h, ApprovedDb(h), "a", ClaimedDb(h).payments["a"], ForeignPersist())
    ensures ApprovedOrder(h, ApprovedDb(h), "a", ClaimedDb(h).payments["a"], ForeignPersist()).Ok?
    ensures SameDirectory(h, ApprovedOrder(h, ApprovedDb(h), "a", ClaimedDb(h).payments["a"], ForeignPersist()).value)
  {
    hide LedgerInv;
    var db, p := ClaimedDb(h), ForeignPersist();
    hide Log, NextRow;
    KeysDiffer();
    var payment, a := db.payments["a"], db.authorizations["a"];
    LogSucceeds(h, db.audit, ResultEvent("a", a, payment, p), "e3");
    var db1 := ApprovedDb(h);
    LogSucceeds(h, db1.audit, OrderEvent(h, "a", db1.authorizations["a"], payment, db.checkouts["c"], p), "e4");
  }

  lemma ClaimedPayment(h: Hasher)
    ensures var db, p := ClaimedDb(h), ForeignPersist();
      && (forall id :: OwnsAttempt(db, id, "t") <==> id == "a")
      && BindsTo(db.payments["a"], p.result) && ResultShape(db.payments["a"]) && ResultFromRow(db.payments["a"]) == None
  {
    hide NextRow;
  }

  lemma ForeignPersisted(h: Hasher)
    requires h.CollisionFree() && LedgerInv(h, ClaimedDb(h).audit) && TwoKeys(ClaimedDb(h).audit)
    ensures SameDirectory(h, Persist(h, ClaimedDb(h), ForeignPersist()).1)
  {
    hide LedgerInv, WriteResult, ApprovedOrder, ClaimedDb, TwoKeys, OwnsAttempt, BindsTo, ResultShape, ResultFromRow;
    hide NextRow, ApprovedDb, Log;
    ForeignApproved(h);
    ClaimedPayment(h);
    assert OwnsAttempt(ClaimedDb(h), "a", "t");
  }

  /** So the promise "every order is defensible" fails as it stands: the reservation never looks at the
      agent's access scope, the dispute does. */
  lemma ForeignAgentLosesDispute(h: Hasher)
    requires h.CollisionFree()
    ensures var db := P.Run(h, P.Fresh(ForeignAgents(), Cards()), ForeignPurchase(h)).db;
      && "a" in db.orders
      && (exists g :: IsGraph(db, db.orders["a"].receiptId, g))
      && forall g :: IsGraph(db, db.orders["a"].receiptId, g) ==>
           && Evaluate(h, db, g).Ok?
           && Adjudicate(Evaluate(h, db, g).value) == Adjudication(UNAUTHORIZED, MERCHANT, CHARGEBACK_RECORDED)
  {
    var s0, steps := P.Fresh(ForeignAgents(), Cards()), ForeignPurchase(h);
    P.FreshInv(h, ForeignAgents(), Cards());
    P.RunKeeps(h, s0, steps);
    ForeignRun(h);
    var db := P.Run(h, s0, steps).db;
    hide RailInv, P.Run, P.HistoryKept, P.CallsBacked, P.AtMostOnce, Evaluate, ForeignPurchase;
    OrderHasGraph(h, db, "a");
    forall g | IsGraph(db, db.orders["a"].receiptId, g)
      ensures Evaluate(h, db, g).Ok?
      ensures Adjudicate(Evaluate(h, db, g).value) == Adjudication(UNAUTHORIZED, MERCHANT, CHARGEBACK_RECORDED)
    {
      VerdictExactly(h, db, db.orders["a"].receiptId, g);
      assert g.agent == AgentRow(STRANGER, OWNER, true) && g.mandate.terms.principalId == PAYER;
      assert |PAYER| != |STRANGER|;
    }
  }

  lemma ForeignRun(h: Hasher)
    requires h.CollisionFree()
    ensures var s := P.Run(h, P.Fresh(ForeignAgents(), Cards()), ForeignPurchase(h));
      SameDirectory(h, s.db)
  {
    hide LedgerInv, TwoKeys, Reserve, Claim, Persist, ClaimedDb, ReservedDb, SameDirectory, P.Next, Base;
    var s0, steps := P.Fresh(ForeignAgents(), Cards()), ForeignPurchase(h);
    ForeignMandateStep(h);
    ForeignReserveStep(h);
    ForeignPaySteps(h);
    FiveSteps(h, s0, steps);
  }

  lemma FiveSteps(h: Hasher, s: P.System, steps: seq<P.Step>)
    requires |steps| == 5
    ensures P.Run(h, s, steps)
         == P.Next(h, P.Next(h, P.Next(h, P.Next(h, P.Next(h, s, steps[0]), steps[1]), steps[2]), steps[3]), steps[4])
  {
    hide P.Next;
    var s1 := P.Next(h, s, steps[0]);
    var s2 := P.Next(h, s1, steps[1]);
    var s3 := P.Next(h, s2, steps[2]);
    assert P.Run(h, s, steps) == P.Run(h, s1, steps[1..]) == P.Run(h, s2, steps[1..][1..]);
    assert steps[1..][1..] == steps[2..] && steps[2..][1..] == steps[3..] && steps[3..][1..] == steps[4..];
    var s4 := P.Next(h, s3, steps[3]);
    assert P.Run(h, s2, steps[2..]) == P.Run(h, s3, steps[3..]) == P.Run(h, s4, steps[4..]);
    assert steps[4..][1..] == [] && P.Run(h, P.Next(h, s4, steps[4]), []) == P.Next(h, s4, steps[4]);
  }

  lemma ForeignReserveStep(h: Hasher)
    requires h.CollisionFree()
    ensures P.Next(h, P.System(Base(h), map[], []), ForeignPurchase(h)[1]) == P.System(ReservedDb(h), map[], [])
  {
    ForeignReserved(h);
    hide Reserve, ListsStale, LedgerInv;
  }

  ghost function ClaimedSystem(h: Hasher): P.System {
    P.System(ClaimedDb(h), map[0 := P.HoldsClaim("t", "key", "a", PRICE)], [])
  }

  lemma ForeignClaimStep(h: Hasher)
    requires h.CollisionFree() && LedgerInv(h, ReservedDb(h).audit)
    ensures P.Next(h, P.System(ReservedDb(h), map[], []), ForeignPurchase(h)[2]) == ClaimedSystem(h)
  {
    ForeignClaimed(h);
    hide Claim, LedgerInv, ClaimedDb, TwoKeys, ReservedDb;
  }

  lemma ForeignExecuteSteps(h: Hasher)
    ensures P.Next(h, P.Next(h, ClaimedSystem(h), ForeignPurchase(h)[3]), ForeignPurchase(h)[4]).db
         == Persist(h, ClaimedDb(h), ForeignPersist()).1
  {
    hide Persist, ClaimedDb;
    var s4 := P.Next(h, ClaimedSystem(h), ForeignPurchase(h)[3]);
    assert s4.db == ClaimedDb(h) && 0 in s4.calls && s4.calls[0] == P.HasResult("t", ForeignResult());
  }

  lemma ForeignPaySteps(h: Hasher)
    requires h.CollisionFree()
    ensures var steps := ForeignPurchase(h);
      var s3 := P.Next(h, P.System(ReservedDb(h), map[], []), steps[2]);
      SameDirectory(h, P.Next(h, P.Next(h, s3, steps[3]), steps[4]).db)
  {
    hide Reserve, Claim, Persist, ListsStale, LedgerInv, ClaimedDb, TwoKeys, SameDirectory, P.Next;
    ForeignReserved(h);
    ForeignClaimed(h);
    ForeignPersisted(h);
    ForeignClaimStep(h);
    ForeignExecuteSteps(h);
  }

  lemma ForeignMandateStep(h: Hasher)
    ensures P.Next(h, P.Fresh(ForeignAgents(), Cards()), ForeignPurchase(h)[0]) == P.System(Base(h), map[], [])
  {
    assert M.ProvenMandate(h, "m", ForeignMandate(h));
  }
}
