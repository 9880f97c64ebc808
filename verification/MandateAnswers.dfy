/** Exactly when a mandate gains, keeps and loses authority, and how every request is answered, on the columns of
    the stored rows (mandates/service.ts, mandates/biometric-consent.ts). */
module MandateAnswers {
  import opened Common
  import opened AuditEvents
  import opened Mandates

  ghost function Reached(h: Hasher, clock: Instant, run: seq<Tick>): System { Run(h, System(Db(map[], map[]), clock), run) }

  lemma ReachedInv(h: Hasher, clock: Instant, run: seq<Tick>)
    ensures Inv(h, Reached(h, clock, run))
  {
    hide Inv, Run;
    InitialSystem(h, clock);
    EveryActivationConsumedOneConsent(h, System(Db(map[], map[]), clock), run);
  }

  // ---------- Authority ----------

  /** In every reachable state a mandate has authority exactly while it is ACTIVE and inside its window; and reading
      it for use marks it EXPIRED exactly when it is ACTIVE and its window has passed. */
  lemma AuthorityExactly(h: Hasher, clock: Instant, run: seq<Tick>, m: Id, now: Instant)
    requires m in Reached(h, clock, run).db.mandates
    ensures var db := Reached(h, clock, run).db;
      var row, read := db.mandates[m], Touch(db, m, now);
      && (AuthorityValid(h, row, now) <==> row.status == ACTIVE && row.terms.validFrom <= now && now < row.terms.expiresAt)
      && read.consents == db.consents && read.mandates.Keys == db.mandates.Keys
      && (forall n :: n in db.mandates && n != m ==> read.mandates[n] == db.mandates[n])
      && read.mandates[m] == row.(status := if row.status == ACTIVE && row.terms.expiresAt <= now then EXPIRED else row.status)
  {
    ReachedInv(h, clock, run);
    RowsOf(h, Reached(h, clock, run));
  }

  // ---------- Drafts ----------

  ghost predicate DraftedUnder(db: Db, key: Id, m: Id) { m in db.mandates && db.mandates[m].creationKey == key }

  ghost predicate UniqueDrafts(db: Db) {
    forall m, n :: m in db.mandates && n in db.mandates && m != n ==> db.mandates[m].creationKey != db.mandates[n].creationKey
  }

  lemma UniqueDraftsStep(h: Hasher, s: System, tick: Tick)
    requires UniqueDrafts(s.db)
    ensures UniqueDrafts(Next(h, s, tick).db)
  {
    hide Answered, IsNewestPick, UniqueDrafts;
    match tick.step
    case DraftStep(terms, key) => NewDraftUnique(s.db, terms, key);
    case _ =>
      CreationKept(h, s, tick);
      SameDrafts(s.db, Next(h, s, tick).db);
  }

  lemma NewDraftUnique(db: Db, terms: MandateTerms, key: Id)
    requires UniqueDrafts(db)
    ensures UniqueDrafts(CreateDraft(db, terms, key).1)
  {
  }

  lemma CreationKept(h: Hasher, s: System, tick: Tick)
    requires !tick.step.DraftStep?
    ensures var db' := Next(h, s, tick).db;
      db'.mandates.Keys == s.db.mandates.Keys
      && forall m :: m in s.db.mandates ==> db'.mandates[m].creationKey == s.db.mandates[m].creationKey
  {
    hide IsMatchingPick, IsLatestPick, IsNewestPick, ConsentFailure, ResultApplied, AttachProvider;
    ConsentsOnly(s.db, tick, s.clock + tick.elapsed);
  }

  lemma ConsentsOnly(db: Db, tick: Tick, now: Instant)
    ensures tick.step.ResultStep? ==> ResultApplied(db, tick.step.consentId, tick.step.result, now).1.mandates == db.mandates
    ensures tick.step.AttachStep? ==> AttachProvider(db, tick.step.consentId, tick.step.session).mandates == db.mandates
  {
  }

  lemma SameDrafts(db: Db, db': Db)
    requires UniqueDrafts(db) && db'.mandates.Keys == db.mandates.Keys
    requires forall m :: m in db.mandates ==> db'.mandates[m].creationKey == db.mandates[m].creationKey
    ensures UniqueDrafts(db')
  {
  }

  lemma {:induction false} UniqueDraftsRun(h: Hasher, s: System, run: seq<Tick>)
    requires UniqueDrafts(s.db)
    ensures UniqueDrafts(Run(h, s, run).db)
    decreases |run|
  {
    hide Next, UniqueDrafts;
    if run != [] {
      UniqueDraftsStep(h, s, run[0]);
      UniqueDraftsRun(h, Next(h, s, run[0]), run[1..]);
    }
  }

  /** A draft is written for a new key and a new id; a key answers with its own mandate to the same terms, and is
      refused to others, as is a mandate id under another key. */
  lemma DraftsExactly(h: Hasher, clock: Instant, run: seq<Tick>, terms: MandateTerms, key: Id)
    ensures var db := Reached(h, clock, run).db;
      var (r, db') := CreateDraft(db, terms, key);
      && (forall m :: DraftedUnder(db, key, m) ==>
           r == (if db.mandates[m].terms == terms then Ok(db.mandates[m]) else Err(IdempotencyConflict)) && db' == db)
      && ((forall m :: !DraftedUnder(db, key, m)) ==>
           if terms.mandateId in db.mandates then r == Err(IdempotencyConflict) && db' == db
           else
             && r.Ok? && db'.consents == db.consents && db'.mandates == db.mandates[terms.mandateId := r.value]
             && r.value == MandateRow(terms, DRAFT, None, None, key, None, None, None, None))
  {
    hide Run;
    var s := System(Db(map[], map[]), clock);
    UniqueDraftsRun(h, s, run);
    var db := Reached(h, clock, run).db;
    if m :| DraftedUnder(db, key, m) {
    } else {
      forall m | m in db.mandates ensures db.mandates[m].creationKey != key { assert !DraftedUnder(db, key, m); }
    }
  }

  // ---------- Activation ----------

  /** A consent that may activate the mandate: given by its principal for its agent and its very terms, verified,
      and not yet expired. */
  predicate Usable(c: ConsentRow, terms: MandateTerms, termsHash: Digest, now: Instant) {
    && c.status == Verified && now < c.expiresAt
    && c.mandateId == terms.mandateId && c.principalId == terms.principalId && c.agentId == terms.agentId && c.termsHash == termsHash
  }

  lemma UsableExactly(h: Hasher, s: System, c: Id, terms: MandateTerms, termsHash: Digest, now: Instant)
    requires Inv(h, s) && c in s.db.consents
    ensures Usable(s.db.consents[c], terms, termsHash, now) <==> Matches(s.db.consents[c], terms, termsHash, now)
    ensures Usable(s.db.consents[c], terms, termsHash, now) ==> s.db.consents[c].verifiedAt.Some?
  {
    RowsOf(h, s);
    assert ConsentShape(s.db.consents[c], s.clock);
  }

  /** The newest consent explains why none is usable. */
  predicate Explains(e: MandateError, c: ConsentRow, terms: MandateTerms, termsHash: Digest, now: Instant) {
    var bound := c.termsHash == termsHash && c.principalId == terms.principalId && c.agentId == terms.agentId;
    && (e == ConsentBindingMismatch <==> !bound)
    && (e == ConsentPending <==> bound && c.status in {Pending, Preparing})
    && (e == ConsentExpired <==> bound && c.status !in {Pending, Preparing} && (c.status == Expired || c.expiresAt <= now))
    && (e == ConsentRejected <==> bound && c.status !in {Pending, Preparing, Expired} && now < c.expiresAt)
  }

  ghost predicate ActivatedElsewhere(db: Db, m: Id, key: Id) {
    exists n :: n in db.mandates && n != m && db.mandates[n].activationKey == Some(key)
  }

  ghost predicate HasUsable(db: Db, terms: MandateTerms, termsHash: Digest, now: Instant) {
    exists c :: c in db.consents && Usable(db.consents[c], terms, termsHash, now)
  }

  /** What a successful activation writes: the mandate's proof, and into a usable consent verified last. */
  ghost predicate ActivatedBy(h: Hasher, db: Db, db': Db, input: ActivateInput, c: Id)
    requires input.mandateId in db.mandates
  {
    var row := db.mandates[input.mandateId];
    && c in db.consents && Usable(db.consents[c], row.terms, h.terms(row.terms), input.now)
    && (forall d | d in db.consents && Usable(db.consents[d], row.terms, h.terms(row.terms), input.now) ::
         NotAfter(db.consents[d].verifiedAt, db.consents[c].verifiedAt))
    && db'.mandates == db.mandates[input.mandateId := row.(status := ACTIVE, termsHash := Some(h.terms(row.terms)),
         principalSignature := Some(input.signature), activationKey := Some(input.key), activatedAt := Some(input.now))]
    && db'.consents == db.consents[c := db.consents[c].(status := Consumed, consumedAt := Some(input.now))]
  }

  predicate NotAfter(a: Option<Instant>, b: Option<Instant>) { a.Some? && b.Some? && a.value <= b.value }

  /** Every activation request, in every reachable state: a draft is activated exactly when its window is still open,
      its key is unused elsewhere and a usable consent is there; a repetition is answered; everything else is refused
      with its reason and writes nothing. */
  lemma ActivatesExactly(h: Hasher, clock: Instant, run: seq<Tick>, input: ActivateInput)
    requires Answered(h, Reached(h, clock, run).db, input) && input.now >= Reached(h, clock, run).clock
    ensures var db, m := Reached(h, clock, run).db, input.mandateId;
      var (r, db') := Activated(h, db, input);
      if ActivatedElsewhere(db, m, input.key) then r == Err(IdempotencyConflict) && db' == db
      else if m !in db.mandates then r == Err(NotFound) && db' == db
      else
        var row := db.mandates[m];
        if row.status != DRAFT then
          r == (if row.activationKey == Some(input.key) then Ok(row) else Err(MandateNotActive)) && db' == db
        else if row.terms.expiresAt <= input.now then r == Err(MandateExpired) && db' == db
        else if HasUsable(db, row.terms, h.terms(row.terms), input.now) then
          && r.Ok? && input.pick.Some? && ActivatedBy(h, db, db', input, input.pick.value) && r.value == db'.mandates[m]
        else
          && r.Err? && db' == db
          && (r.error == ConsentRequired <==> forall c :: c in db.consents ==> db.consents[c].mandateId != m)
          && (r.error != ConsentRequired ==>
               && input.latest.Some? && input.latest.value in db.consents
               && var l := db.consents[input.latest.value];
               && l.mandateId == m && Explains(r.error, l, row.terms, h.terms(row.terms), input.now)
               && forall c :: c in db.consents && db.consents[c].mandateId == m ==> db.consents[c].createdAt <= l.createdAt)
  {
    hide Run, Matches;
    ReachedInv(h, clock, run);
    var s := Reached(h, clock, run);
    RowsOf(h, s);
    hide Inv;
    if input.mandateId in s.db.mandates {
      var terms := s.db.mandates[input.mandateId].terms;
      assert ProvenMandate(h, input.mandateId, s.db.mandates[input.mandateId]);
      forall c | c in s.db.consents
        ensures Usable(s.db.consents[c], terms, h.terms(terms), input.now) <==> Matches(s.db.consents[c], terms, h.terms(terms), input.now)
        ensures Usable(s.db.consents[c], terms, h.terms(terms), input.now) ==> s.db.consents[c].verifiedAt.Some?
      {
        UsableExactly(h, s, c, terms, h.terms(terms), input.now);
      }
    }
  }

  // ---------- Revocation ----------

  ghost predicate RevokedElsewhere(db: Db, m: Id, key: Id) {
    exists n :: n in db.mandates && n != m && db.mandates[n].revocationKey == Some(key)
  }

  /** Every revocation request: it takes away the authority of an active mandate whose window is open, is answered
      again afterwards, and marks a passed window on its way; nothing else is written. */
  lemma RevokesExactly(db: Db, m: Id, key: Id, now: Instant)
    ensures var (r, db') := Revoked(db, m, key, now);
      && db'.consents == db.consents
      && if RevokedElsewhere(db, m, key) then r == Err(IdempotencyConflict) && db' == db
         else if m !in db.mandates then r == Err(NotFound) && db' == db
         else
           var row := db.mandates[m];
           match row.status
           case REVOKED => r == Ok(row) && db' == db
           case EXPIRED => r == Err(MandateExpired) && db' == db
           case ACTIVE =>
             if row.terms.expiresAt <= now then
               r == Err(MandateExpired) && db'.mandates == db.mandates[m := row.(status := EXPIRED)]
             else
               r == Ok(row.(status := REVOKED, revokedAt := Some(now), revocationKey := Some(key)))
               && db'.mandates == db.mandates[m := r.value]
           case _ => r == Err(MandateNotActive) && db' == db
  {
  }

  // ---------- Starting a consent ----------

  ghost predicate StartedUnder(db: Db, key: Id, c: Id) { c in db.consents && db.consents[c].creationKey == key }

  /** Still usable, or on its way to be, for these terms. */
  predicate StillOpen(c: ConsentRow, m: Id, termsHash: Digest, now: Instant) {
    c.mandateId == m && c.termsHash == termsHash && now < c.expiresAt
  }

  /** A consent is started anew exactly when its key is new and the newest unexpired one on the same terms, if there
      is any, is neither open nor verified; it lasts ten minutes from then. Otherwise the one that is there answers. */
  lemma StartsExactly(h: Hasher, db: Db, input: StartInput)
    requires IsNewestPick(h, db, input) && forall c :: !StartedUnder(db, input.key, c)
    ensures var (r, db') := StartConsent(h, db, input);
      var termsHash := h.terms(input.terms);
      && db'.mandates == db.mandates
      && (input.newest == None <==> forall c :: c in db.consents ==> !StillOpen(db.consents[c], input.terms.mandateId, termsHash, input.now))
      && (input.newest.Some? ==>
           && input.newest.value in db.consents && StillOpen(db.consents[input.newest.value], input.terms.mandateId, termsHash, input.now)
           && forall c :: c in db.consents && StillOpen(db.consents[c], input.terms.mandateId, termsHash, input.now) ==>
                db.consents[c].createdAt <= db.consents[input.newest.value].createdAt)
      && if input.newest.Some? && db.consents[input.newest.value].status in {Preparing, Pending, Verified} then
           r == Ok(input.newest.value) && db' == db
         else if input.consentId in db.consents then r == Err(UniqueViolation) && db' == db
         else
           && r == Ok(input.consentId)
           && db'.consents == db.consents[input.consentId :=
                ConsentRow(input.terms.mandateId, input.terms.principalId, input.terms.agentId, termsHash, Preparing, None,
                           input.key, input.now, input.now + 600_000, None, None)]
  {
    forall c | c in db.consents ensures db.consents[c].creationKey != input.key { assert !StartedUnder(db, input.key, c); }
    forall c | c in db.consents
      ensures StillOpen(db.consents[c], input.terms.mandateId, h.terms(input.terms), input.now)
         <==> Unexpired(db.consents[c], input.terms.mandateId, h.terms(input.terms), input.now) {}
  }

  /** A key that was used answers with its own consent to the same request and is refused to any other. */
  lemma RestartsExactly(h: Hasher, db: Db, input: StartInput, c: Id)
    requires IsNewestPick(h, db, input) && StartedUnder(db, input.key, c)
    requires forall d :: StartedUnder(db, input.key, d) ==> d == c
    ensures var row := db.consents[c];
      StartConsent(h, db, input) ==
        (if row.mandateId == input.terms.mandateId && row.principalId == input.terms.principalId && row.termsHash == h.terms(input.terms)
         then Ok(c) else Err(IdempotencyConflict), db)
  {
    forall d | d in db.consents && db.consents[d].creationKey == input.key ensures d == c { assert StartedUnder(db, input.key, d); }
  }

  /** The provider's session opens a consent that is being prepared, unless another has it; without one it failed. */
  lemma AttachesExactly(db: Db, c: Id, session: Option<Id>)
    ensures var db' := AttachProvider(db, c, session);
      && db'.mandates == db.mandates && db'.consents.Keys == db.consents.Keys
      && (forall d :: d in db.consents && d != c ==> db'.consents[d] == db.consents[d])
      && (c in db.consents ==>
           var row := db.consents[c];
           db'.consents[c] ==
             if row.status != Preparing then row
             else if session.None? || exists d :: d in db.consents && db.consents[d].assessment == session then row.(status := Errored)
             else row.(status := Pending, assessment := session))
  {
  }

  // ---------- The queries have answers ----------

  lemma {:induction false} Newest(db: Db, among: set<Id>) returns (p: Id)
    requires among != {} && among <= db.consents.Keys
    ensures p in among && forall c :: c in among ==> db.consents[c].createdAt <= db.consents[p].createdAt
    decreases |among|
  {
    p :| p in among;
    if among != {p} {
      var q := Newest(db, among - {p});
      if db.consents[q].createdAt > db.consents[p].createdAt { p := q; }
    }
  }

  lemma {:induction false} LastVerified(db: Db, among: set<Id>) returns (p: Id)
    requires among != {} && among <= db.consents.Keys && forall c :: c in among ==> db.consents[c].verifiedAt.Some?
    ensures p in among && forall c :: c in among ==> NotAfter(db.consents[c].verifiedAt, db.consents[p].verifiedAt)
    decreases |among|
  {
    p :| p in among;
    if among != {p} {
      var q := LastVerified(db, among - {p});
      if db.consents[q].verifiedAt.value > db.consents[p].verifiedAt.value { p := q; }
    }
  }

  /** In every reachable state the two queries of an activation, and the one of a new consent, have answers. */
  lemma QueriesHaveAnswers(h: Hasher, clock: Instant, run: seq<Tick>, input: ActivateInput, start: StartInput)
    returns (pick: Option<Id>, latest: Option<Id>, newest: Option<Id>)
    requires input.mandateId in Reached(h, clock, run).db.mandates
    ensures Answered(h, Reached(h, clock, run).db, input.(pick := pick, latest := latest))
    ensures IsNewestPick(h, Reached(h, clock, run).db, start.(newest := newest))
  {
    hide Run, Inv;
    ReachedInv(h, clock, run);
    var s := Reached(h, clock, run);
    var db, terms := s.db, s.db.mandates[input.mandateId].terms;
    forall c | c in db.consents
      ensures Matches(db.consents[c], terms, h.terms(terms), input.now) ==> db.consents[c].verifiedAt.Some?
    {
      UsableExactly(h, s, c, terms, h.terms(terms), input.now);
    }
    var matching := set c | c in db.consents && Matches(db.consents[c], terms, h.terms(terms), input.now);
    var mine := set c | c in db.consents && db.consents[c].mandateId == terms.mandateId;
    var unexpired := set c | c in db.consents && Unexpired(db.consents[c], start.terms.mandateId, h.terms(start.terms), start.now);
    pick, latest, newest := None, None, None;
    if matching != {} { var p := LastVerified(db, matching); pick := Some(p); }
    if mine != {} { var p := Newest(db, mine); latest := Some(p); }
    if unexpired != {} { var p := Newest(db, unexpired); newest := Some(p); }
    NoneIn(db, terms, h.terms(terms), input.now, matching);
    assert mine == {} ==> forall c :: c in db.consents ==> c !in mine;
    assert unexpired == {} ==> forall c :: c in db.consents ==> c !in unexpired;
  }

  lemma NoneIn(db: Db, terms: MandateTerms, termsHash: Digest, now: Instant, matching: set<Id>)
    requires matching == set c | c in db.consents && Matches(db.consents[c], terms, termsHash, now)
    ensures matching == {} ==> forall c :: c in db.consents ==> !Matches(db.consents[c], terms, termsHash, now)
  {
    forall c | c in db.consents && Matches(db.consents[c], terms, termsHash, now) ensures c in matching {}
  }
}
