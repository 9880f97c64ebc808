/** What a consent's status rests on: which provider result arrived for it, and when. */
module ConsentEvidence {
  import opened Common
  import opened AuditEvents
  import opened Mandates

  /** Tick `k` of a run from `s` brought `result` for consent `c`, at `at`. */
  ghost predicate Arrived(h: Hasher, s: System, run: seq<Tick>, k: nat, c: Id, result: ProviderStatus, at: Instant) {
    k < |run| && run[k].step == ResultStep(c, result) && Run(h, s, run[..k]).clock + run[k].elapsed == at
  }

  ghost predicate Brought(h: Hasher, s: System, run: seq<Tick>, c: Id, result: ProviderStatus, at: Instant) {
    exists k: nat :: Arrived(h, s, run, k, c, result, at)
  }

  /** A run is its first ticks and then its last one. */
  lemma {:induction false} RunLast(h: Hasher, s: System, run: seq<Tick>)
    requires run != []
    ensures Run(h, s, run) == Next(h, Run(h, s, run[..|run| - 1]), run[|run| - 1])
    decreases |run|
  {
    hide Next;
    if |run| == 1 {
      assert run[..0] == [] && run[1..] == [];
    } else {
      RunLast(h, Next(h, s, run[0]), run[1..]);
      assert run[1..][..|run| - 2] == run[..|run| - 1][1..];
    }
  }

  lemma BroughtBefore(h: Hasher, s: System, run: seq<Tick>, c: Id, result: ProviderStatus, at: Instant)
    requires run != [] && Brought(h, s, run[..|run| - 1], c, result, at)
    ensures Brought(h, s, run, c, result, at)
  {
    hide Run;
    var init := run[..|run| - 1];
    var k: nat :| Arrived(h, s, init, k, c, result, at);
    assert init[..k] == run[..k];
    assert Arrived(h, s, run, k, c, result, at);
  }

  lemma BroughtLast(h: Hasher, s: System, run: seq<Tick>, c: Id, result: ProviderStatus)
    requires run != [] && run[|run| - 1].step == ResultStep(c, result)
    ensures Brought(h, s, run, c, result, Run(h, s, run[..|run| - 1]).clock + run[|run| - 1].elapsed)
  {
    hide Run;
    assert Arrived(h, s, run, |run| - 1, c, result, Run(h, s, run[..|run| - 1]).clock + run[|run| - 1].elapsed);
  }

  /** The proof of a consent's time of verification, once it has one. */
  ghost predicate Backed(h: Hasher, s: System, run: seq<Tick>, c: Id, row: ConsentRow) {
    && (row.verifiedAt.Some? ==> Brought(h, s, run, c, VerifiedResult, row.verifiedAt.value))
    && (row.status == Rejected ==> exists at: Instant :: Brought(h, s, run, c, RejectedResult, at))
  }

  /** One step gives a consent a time of verification or a rejection only by that very result for that consent. */
  lemma OnlyResultsVerify(h: Hasher, s: System, tick: Tick, c: Id)
    requires c in Next(h, s, tick).db.consents
    ensures var row, now := Next(h, s, tick).db.consents[c], s.clock + tick.elapsed;
      && (row.verifiedAt.Some? ==>
           || (c in s.db.consents && s.db.consents[c].verifiedAt == row.verifiedAt)
           || (tick.step == ResultStep(c, VerifiedResult) && row.verifiedAt == Some(now)))
      && (row.status == Rejected ==>
           (c in s.db.consents && s.db.consents[c].status == Rejected) || tick.step == ResultStep(c, RejectedResult))
  {
    hide IsMatchingPick, IsLatestPick, IsNewestPick;
  }

  lemma {:induction false} EveryConsentIsBacked(h: Hasher, s: System, run: seq<Tick>, c: Id)
    requires s.db.consents == map[] && c in Run(h, s, run).db.consents
    ensures Backed(h, s, run, c, Run(h, s, run).db.consents[c])
    decreases |run|
  {
    hide Next, Brought;
    if run != [] {
      var init, last := run[..|run| - 1], run[|run| - 1];
      var before := Run(h, s, init);
      RunLast(h, s, run);
      OnlyResultsVerify(h, before, last, c);
      var row := Run(h, s, run).db.consents[c];
      if c in before.db.consents {
        EveryConsentIsBacked(h, s, init, c);
        var was := before.db.consents[c];
        if was.verifiedAt.Some? { BroughtBefore(h, s, run, c, VerifiedResult, was.verifiedAt.value); }
        if was.status == Rejected {
          var at: Instant :| Brought(h, s, init, c, RejectedResult, at);
          BroughtBefore(h, s, run, c, RejectedResult, at);
        }
      }
      match last.step
      case ResultStep(d, result) => if d == c { BroughtLast(h, s, run, c, result); }
      case _ =>
    }
  }

  /** In every run from empty tables a consent is verified, or has been consumed, only if the provider answered
      VERIFIED for that very consent: at exactly its time of verification, and before it expired. */
  lemma VerifiedByProvider(h: Hasher, clock: Instant, run: seq<Tick>, c: Id)
    requires c in Run(h, System(Db(map[], map[]), clock), run).db.consents
    requires Run(h, System(Db(map[], map[]), clock), run).db.consents[c].status in {Verified, Consumed}
    ensures var s := System(Db(map[], map[]), clock);
      var row := Run(h, s, run).db.consents[c];
      && row.verifiedAt.Some? && row.verifiedAt.value < row.expiresAt
      && Brought(h, s, run, c, VerifiedResult, row.verifiedAt.value)
  {
    hide Run, Brought, ProvenMandates, ExactlyOneConsumed, ConsumedFor;
    var s := System(Db(map[], map[]), clock);
    InitialSystem(h, clock);
    EveryActivationConsumedOneConsent(h, s, run);
    EveryConsentIsBacked(h, s, run, c);
    RowsOf(h, Run(h, s, run));
    assert ConsentShape(Run(h, s, run).db.consents[c], Run(h, s, run).clock);
  }

  /** So every activated mandate rests on one: a consent on its terms that the provider verified before the
      activation, which is when it was consumed. */
  lemma ActivationsRestOnVerification(h: Hasher, clock: Instant, run: seq<Tick>, m: Id)
    requires m in Run(h, System(Db(map[], map[]), clock), run).db.mandates
    requires Run(h, System(Db(map[], map[]), clock), run).db.mandates[m].activatedAt.Some?
    ensures var s := System(Db(map[], map[]), clock);
      var db := Run(h, s, run).db;
      exists c, at ::
        && c in db.consents && db.consents[c].mandateId == m && db.consents[c].termsHash == h.terms(db.mandates[m].terms)
        && db.consents[c].consumedAt == db.mandates[m].activatedAt
        && Brought(h, s, run, c, VerifiedResult, at) && at <= db.mandates[m].activatedAt.value < db.consents[c].expiresAt
  {
    hide Run, Brought;
    var s := System(Db(map[], map[]), clock);
    InitialSystem(h, clock);
    EveryActivationConsumedOneConsent(h, s, run);
    var db := Run(h, s, run).db;
    var c :| c in db.consents && db.consents[c].mandateId == m && db.consents[c].status == Consumed;
    VerifiedByProvider(h, clock, run, c);
    assert ConsumedFor(h, db, db.consents[c]) && ConsentShape(db.consents[c], Run(h, s, run).clock);
    assert ProvenMandate(h, m, db.mandates[m]);
  }

  /** What each answer of the provider does to a consent that is still open, and what no answer does to one that
      is settled or has no session. */
  lemma AnswersRecorded(h: Hasher, s: System, c: Id, result: ProviderStatus, elapsed: nat)
    requires c in s.db.consents
    ensures var row, now := s.db.consents[c], s.clock + elapsed;
      var db' := Next(h, s, Tick(ResultStep(c, result), elapsed)).db;
      && db'.mandates == s.db.mandates && db'.consents.Keys == s.db.consents.Keys
      && (forall d :: d in s.db.consents && d != c ==> db'.consents[d] == s.db.consents[d])
      && var after := db'.consents[c];
      && after == row.(status := after.status, verifiedAt := after.verifiedAt)
      && if row.assessment == None || row.status in {Consumed, Verified, Rejected, Expired} then after == row
         else if row.expiresAt <= now then after.status == Expired && after.verifiedAt == None
         else
           && (after.status == Verified <==> result == VerifiedResult)
           && (after.status == Rejected <==> result == RejectedResult)
           && (after.status == Expired <==> result == ExpiredResult)
           && (after.status == Errored <==> result == ErrorResult)
           && (after.status == Pending <==> result == PendingResult)
           && after.verifiedAt == if result == VerifiedResult then Some(now) else None
  {
  }
}
