/** `PaymentService.pay` as one caller runs it, undisturbed: claim, call the executor, persist
    (payments/service.ts). Interleavings with other callers are the steps of PaymentProcess. */
module PaymentServices {
  import opened Common
  import opened AuditEvents
  import opened PaymentResults
  import opened PaymentStores
  import R = Rail
  import P = PaymentProcess

  datatype PayError = StoreFailed(cause: R.RailError) | ExecutorFailed

  /** The steps of an undisturbed call. `outcome` is what the executor returns, None when it throws. */
  function PaySteps(c: R.ClaimInput, outcome: Option<PaymentResult>, now: Instant, events: (Id, Id)): seq<P.Step> {
    [P.ClaimStep(0, c), P.ExecuteStep(0, outcome), P.PersistStep(0, now, events.0, events.1)]
  }

  ghost function Paid(h: Hasher, db: R.Db, c: R.ClaimInput, outcome: Option<PaymentResult>, now: Instant, events: (Id, Id)): P.System {
    var s1 := P.Next(h, P.System(db, map[], []), P.ClaimStep(0, c));
    var s2 := P.Next(h, s1, P.ExecuteStep(0, outcome));
    P.Next(h, s2, P.PersistStep(0, now, events.0, events.1))
  }

  lemma PaidIsARun(h: Hasher, db: R.Db, c: R.ClaimInput, outcome: Option<PaymentResult>, now: Instant, events: (Id, Id))
    ensures Paid(h, db, c, outcome, now, events) == P.Run(h, P.System(db, map[], []), PaySteps(c, outcome, now, events))
  {
    hide P.Next;
    var steps := PaySteps(c, outcome, now, events);
    var s1 := P.Next(h, P.System(db, map[], []), steps[0]);
    var s2 := P.Next(h, s1, steps[1]);
    assert P.Run(h, P.System(db, map[], []), steps) == P.Run(h, s1, steps[1..]) == P.Run(h, s2, steps[1..][1..]);
    assert steps[1..][1..] == [steps[2]] && [steps[2]][1..] == [];
  }

  class PaymentService {
    const store: PaymentStore

    constructor (store: PaymentStore)
      ensures this.store == store
    {
      this.store := store;
    }

    /** A finished claim is answered from the store and never reaches the executor. */
    method Pay(c: R.ClaimInput, outcome: Option<PaymentResult>, now: Instant, events: (Id, Id))
      returns (r: Result<PaymentResult, PayError>, calls: nat)
      requires store.Valid()
      modifies store, store.ledger
      ensures store.Valid()
      ensures var paid := Paid(store.h, old(store.Rows()), c, outcome, now, events);
        && store.Rows() == paid.db && calls == |paid.executed|
        && paid.db == P.Run(store.h, P.System(old(store.Rows()), map[], []), PaySteps(c, outcome, now, events)).db
      ensures calls == 0 && r.Ok? ==> R.Claim(store.h, old(store.Rows()), c).0 == Ok(R.Completed(r.value))
      ensures calls == 1 && r.Ok? ==> Some(r.value) == outcome
    {
      hide R.Claim, R.Persist;
      PaidIsARun(store.h, store.Rows(), c, outcome, now, events);
      hide P.Run;
      var claim := store.Claim(c);
      if claim.Err? { return Err(StoreFailed(claim.error)), 0; }
      if claim.value.Completed? { return Ok(claim.value.result), 0; }
      if outcome.None? { return Err(ExecutorFailed), 1; }
      var result := outcome.value;
      if result.authorizationId != claim.value.authorizationId || result.amount != claim.value.amount {
        return Err(ExecutorFailed), 1;
      }
      var persisted := store.PersistResult(R.PersistInput(claim.value.paymentAttemptId, result, now, events.0, events.1));
      PersistAnswers(store.h, R.Claim(store.h, old(store.Rows()), c).1,
                     R.PersistInput(claim.value.paymentAttemptId, result, now, events.0, events.1));
      if persisted.Err? { return Err(StoreFailed(persisted.error)), 1; }
      return Ok(persisted.value), 1;
    }
  }

  /** `persistResult` answers with the very result it was given. */
  lemma PersistAnswers(h: Hasher, db: R.Db, p: R.PersistInput)
    ensures R.Persist(h, db, p).0.Ok? ==> R.Persist(h, db, p).0.value == p.result
  {
    hide R.WriteResult;
  }
}
