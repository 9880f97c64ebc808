/** Mandates and the single-use biometric consent that activates them
    (mandates/service.ts, mandates/biometric-consent.ts). */
module Mandates {
  import opened Common
  import opened AuditEvents

  datatype MandateStatus = DRAFT | ACTIVE | REVOKED | EXPIRED | CONSUMED

  datatype MandateRow = MandateRow(
    terms: MandateTerms,
    status: MandateStatus,
    termsHash: Option<Digest>,
    principalSignature: Option<string>,
    creationKey: Id,
    activationKey: Option<Id>,
    revocationKey: Option<Id>,
    activatedAt: Option<Instant>,
    revokedAt: Option<Instant>)

  datatype ConsentStatus = Preparing | Pending | Verified | Rejected | Expired | Errored | Consumed

  datatype ConsentRow = ConsentRow(
    mandateId: Id,
    principalId: Id,
    agentId: Id,
    termsHash: Digest,
    status: ConsentStatus,
    assessment: Option<Id>,
    creationKey: Id,
    createdAt: Instant,
    expiresAt: Instant,
    verifiedAt: Option<Instant>,
    consumedAt: Option<Instant>)

  datatype Db = Db(mandates: map<Id, MandateRow>, consents: map<Id, ConsentRow>)

  datatype MandateError =
    | NotFound | IdempotencyConflict | MandateNotActive | MandateExpired | NotADraft | UniqueViolation
    | ConsentRequired | ConsentBindingMismatch | ConsentPending | ConsentExpired | ConsentRejected
    | NotReady | ProviderUnavailable

  const TTL_MS: Instant := 600_000

  /** `authority_valid` of an active mandate. */
  predicate AuthorityValid(h: Hasher, row: MandateRow, now: Instant) {
    && row.status == ACTIVE
    && row.terms.validFrom <= now < row.terms.expiresAt
    && row.termsHash == Some(h.terms(row.terms))
  }

  // ---------- Mandate transactions ----------

  function PersistExpiry(row: MandateRow, now: Instant): MandateRow {
    if row.status == ACTIVE && row.terms.expiresAt <= now then row.(status := EXPIRED) else row
  }

  /** Every read for use (`getMandate`, the verification load) persists a passed expiry. */
  function Touch(db: Db, mandateId: Id, now: Instant): Db {
    if mandateId in db.mandates then
      db.(mandates := db.mandates[mandateId := PersistExpiry(db.mandates[mandateId], now)])
    else db
  }

  ghost function CreateDraft(db: Db, terms: MandateTerms, key: Id): (Result<MandateRow, MandateError>, Db) {
    if m :| m in db.mandates && db.mandates[m].creationKey == key then
      (if db.mandates[m].terms == terms then Ok(db.mandates[m]) else Err(IdempotencyConflict), db)
    else if terms.mandateId in db.mandates then (Err(IdempotencyConflict), db)
    else
      var row := MandateRow(terms, DRAFT, None, None, key, None, None, None, None);
      (Ok(row), db.(mandates := db.mandates[terms.mandateId := row]))
  }

  predicate ActivationKeyElsewhere(db: Db, mandateId: Id, key: Id) {
    exists m :: m in db.mandates && m != mandateId && db.mandates[m].activationKey == Some(key)
  }

  predicate RevocationKeyElsewhere(db: Db, mandateId: Id, key: Id) {
    exists m :: m in db.mandates && m != mandateId && db.mandates[m].revocationKey == Some(key)
  }

  predicate Matches(c: ConsentRow, terms: MandateTerms, termsHash: Digest, now: Instant) {
    && c.mandateId == terms.mandateId && c.principalId == terms.principalId && c.agentId == terms.agentId
    && c.termsHash == termsHash && c.status == Verified && now < c.expiresAt && c.consumedAt == None
  }

  predicate NotLater(a: Option<Instant>, b: Option<Instant>) {
    a.Some? && b.Some? ==> a.value <= b.value
  }

  /** `pick` answers the query for the most recently verified matching consent. */
  ghost predicate IsMatchingPick(db: Db, terms: MandateTerms, termsHash: Digest, now: Instant, pick: Option<Id>) {
    match pick
    case None => forall c :: c in db.consents ==> !Matches(db.consents[c], terms, termsHash, now)
    case Some(p) =>
      && p in db.consents && Matches(db.consents[p], terms, termsHash, now)
      && forall c | c in db.consents && Matches(db.consents[c], terms, termsHash, now) ::
           NotLater(db.consents[c].verifiedAt, db.consents[p].verifiedAt)
  }

  /** `latest` answers the query for the newest consent of a mandate. */
  ghost predicate IsLatestPick(db: Db, mandateId: Id, latest: Option<Id>) {
    match latest
    case None => forall c :: c in db.consents ==> db.consents[c].mandateId != mandateId
    case Some(p) =>
      && p in db.consents && db.consents[p].mandateId == mandateId
      && forall c :: c in db.consents && db.consents[c].mandateId == mandateId ==>
           db.consents[c].createdAt <= db.consents[p].createdAt
  }

  /** Which error a mandate without a usable consent is refused with. */
  function ConsentFailure(db: Db, terms: MandateTerms, termsHash: Digest, now: Instant, latest: Option<Id>): MandateError
    requires latest.Some? ==> latest.value in db.consents
  {
    if latest.None? then ConsentRequired
    else
      var c := db.consents[latest.value];
      if c.termsHash != termsHash || c.principalId != terms.principalId || c.agentId != terms.agentId then ConsentBindingMismatch
      else if c.status == Pending || c.status == Preparing then ConsentPending
      else if c.status == Expired || c.expiresAt <= now then ConsentExpired
      else ConsentRejected
  }

  datatype ActivateInput = ActivateInput(
    mandateId: Id, key: Id, now: Instant, signature: string, pick: Option<Id>, latest: Option<Id>)

  /** `pick` and `latest` are what the two queries return for this mandate. */
  ghost predicate Answered(h: Hasher, db: Db, input: ActivateInput) {
    && (input.latest.Some? ==> input.latest.value in db.consents)
    && (input.pick.Some? ==> input.pick.value in db.consents)
    && (input.mandateId in db.mandates ==>
         var terms := db.mandates[input.mandateId].terms;
         && IsMatchingPick(db, terms, h.terms(terms), input.now, input.pick)
         && IsLatestPick(db, terms.mandateId, input.latest))
  }

  /** `activate` with the consent gate: the consent is consumed in the same transaction. */
  ghost function Activated(h: Hasher, db: Db, input: ActivateInput): (Result<MandateRow, MandateError>, Db)
    requires Answered(h, db, input)
  {
    if ActivationKeyElsewhere(db, input.mandateId, input.key) then (Err(IdempotencyConflict), db)
    else if input.mandateId !in db.mandates then (Err(NotFound), db)
    else
      var row := db.mandates[input.mandateId];
      if row.status != DRAFT then
        (if row.activationKey == Some(input.key) then Ok(row) else Err(MandateNotActive), db)
      else if row.terms.expiresAt <= input.now then (Err(MandateExpired), db)
      else
        var termsHash := h.terms(row.terms);
        if input.pick.None? then
          (Err(ConsentFailure(db, row.terms, termsHash, input.now, input.latest)), db)
        else
          var consent := db.consents[input.pick.value].(status := Consumed, consumedAt := Some(input.now));
          var active := row.(status := ACTIVE, termsHash := Some(termsHash), principalSignature := Some(input.signature),
                             activationKey := Some(input.key), activatedAt := Some(input.now));
          (Ok(active), Db(db.mandates[input.mandateId := active], db.consents[input.pick.value := consent]))
  }

  function Revoked(db: Db, mandateId: Id, key: Id, now: Instant): (Result<MandateRow, MandateError>, Db) {
    if RevocationKeyElsewhere(db, mandateId, key) then (Err(IdempotencyConflict), db)
    else if mandateId !in db.mandates then (Err(NotFound), db)
    else
      var row := db.mandates[mandateId];
      if row.status == REVOKED then (Ok(row), db)
      else if row.status != ACTIVE then (Err(if row.status == EXPIRED then MandateExpired else MandateNotActive), db)
      else if row.terms.expiresAt <= now then
        (Err(MandateExpired), db.(mandates := db.mandates[mandateId := PersistExpiry(row, now)]))
      else
        var revoked := row.(status := REVOKED, revokedAt := Some(now), revocationKey := Some(key));
        (Ok(revoked), db.(mandates := db.mandates[mandateId := revoked]))
  }

  // ---------- Consent transactions ----------

  datatype StartInput = StartInput(terms: MandateTerms, consentId: Id, key: Id, now: Instant, newest: Option<Id>)

  predicate Unexpired(c: ConsentRow, mandateId: Id, termsHash: Digest, now: Instant) {
    c.mandateId == mandateId && c.termsHash == termsHash && now < c.expiresAt
  }

  /** `newest` answers the query for the newest unexpired consent on the same terms. */
  ghost predicate IsNewestPick(h: Hasher, db: Db, input: StartInput) {
    var termsHash := h.terms(input.terms);
    match input.newest
    case None => forall c :: c in db.consents ==> !Unexpired(db.consents[c], input.terms.mandateId, termsHash, input.now)
    case Some(p) =>
      && p in db.consents && Unexpired(db.consents[p], input.terms.mandateId, termsHash, input.now)
      && forall c | c in db.consents && Unexpired(db.consents[c], input.terms.mandateId, termsHash, input.now) ::
           db.consents[c].createdAt <= db.consents[p].createdAt
  }

  /** The transaction of `start`. `terms` is the mandate as it was read before the transaction; the
      newest unexpired consent for the same terms is reused while it is still open. */
  ghost function StartConsent(h: Hasher, db: Db, input: StartInput): (Result<Id, MandateError>, Db)
    requires IsNewestPick(h, db, input)
  {
    var termsHash := h.terms(input.terms);
    if c :| c in db.consents && db.consents[c].creationKey == input.key then
      (if db.consents[c].mandateId == input.terms.mandateId && db.consents[c].principalId == input.terms.principalId
          && db.consents[c].termsHash == termsHash then Ok(c) else Err(IdempotencyConflict), db)
    else if input.newest.Some? && db.consents[input.newest.value].status in {Preparing, Pending, Verified} then
      (Ok(input.newest.value), db)
    else if input.consentId in db.consents then (Err(UniqueViolation), db)
    else
      var row := ConsentRow(input.terms.mandateId, input.terms.principalId, input.terms.agentId, termsHash, Preparing,
                            None, input.key, input.now, input.now + TTL_MS, None, None);
      (Ok(input.consentId), db.(consents := db.consents[input.consentId := row]))
  }

  /** After the provider call of `start`: attach its session, or record that it was unavailable. */
  function AttachProvider(db: Db, consentId: Id, session: Option<Id>): Db {
    if consentId !in db.consents || db.consents[consentId].status != Preparing then db
    else if session.Some? && exists c :: c in db.consents && db.consents[c].assessment == session then
      db.(consents := db.consents[consentId := db.consents[consentId].(status := Errored)])
    else if session.Some? then
      db.(consents := db.consents[consentId := db.consents[consentId].(status := Pending, assessment := session)])
    else db.(consents := db.consents[consentId := db.consents[consentId].(status := Errored)])
  }

  datatype ProviderStatus = PendingResult | VerifiedResult | RejectedResult | ExpiredResult | ErrorResult

  function PublicStatus(status: ProviderStatus): ConsentStatus {
    match status
    case PendingResult => Pending
    case VerifiedResult => Verified
    case RejectedResult => Rejected
    case ExpiredResult => Expired
    case ErrorResult => Errored
  }

  predicate Settled(status: ConsentStatus) {
    status in {Consumed, Verified, Rejected, Expired}
  }

  /** `#applyResult`, reached from `refresh` and from provider events, both of which need a session. */
  function ResultApplied(db: Db, consentId: Id, result: ProviderStatus, now: Instant): (Result<ConsentRow, MandateError>, Db) {
    if consentId !in db.consents then (Err(NotFound), db)
    else
      var row := db.consents[consentId];
      if Settled(row.status) then (Ok(row), db)
      else if row.assessment == None then (Err(NotReady), db)
      else
        var status := if row.expiresAt <= now then Expired else PublicStatus(result);
        var updated := row.(status := status, verifiedAt := if status == Verified then Some(now) else None);
        (Ok(updated), db.(consents := db.consents[consentId := updated]))
  }

  // ---------- Runs ----------

  /** Every way the rows change, in any interleaving. A provider call may crash: its step is left out. */
  datatype Step =
    | DraftStep(terms: MandateTerms, key: Id)
    | TouchStep(mandateId: Id)
    | ActivateStep(input: ActivateInput)
    | RevokeStep(mandateId: Id, key: Id)
    | StartStep(start: StartInput)
    | AttachStep(consentId: Id, session: Option<Id>)
    | ResultStep(consentId: Id, result: ProviderStatus)

  datatype System = System(db: Db, clock: Instant)

  /** A step and the time since the one before it: the clock never goes back. */
  datatype Tick = Tick(step: Step, elapsed: nat)

  ghost function Next(h: Hasher, s: System, tick: Tick): System {
    var now := s.clock + tick.elapsed;
    var db' := match tick.step
      case DraftStep(terms, key) => CreateDraft(s.db, terms, key).1
      case TouchStep(m) => Touch(s.db, m, now)
      case ActivateStep(input) =>
        if Answered(h, s.db, input) && input.now == now then Activated(h, s.db, input).1 else s.db
      case RevokeStep(m, key) => Revoked(s.db, m, key, now).1
      case StartStep(start) =>
        if start.now == now && IsNewestPick(h, s.db, start) then StartConsent(h, s.db, start).1 else s.db
      case AttachStep(c, session) => AttachProvider(s.db, c, session)
      case ResultStep(c, result) => ResultApplied(s.db, c, result, now).1;
    System(db', now)
  }

  ghost function Run(h: Hasher, s: System, run: seq<Tick>): System
    decreases |run|
  {
    if run == [] then s else Run(h, Next(h, s, run[0]), run[1..])
  }

  // ---------- What every run keeps ----------

  /** What a mandate row says about itself once it has been activated. */
  ghost predicate ProvenMandate(h: Hasher, m: Id, row: MandateRow) {
    && row.terms.mandateId == m
    && (row.status == DRAFT ==> row.activatedAt == None && row.termsHash == None && row.principalSignature == None)
    && (row.status != DRAFT ==>
         row.activatedAt.Some? && row.termsHash == Some(h.terms(row.terms)) && row.principalSignature.Some?)
  }

  ghost predicate ProvenMandates(h: Hasher, mandates: map<Id, MandateRow>) {
    forall m :: m in mandates ==> ProvenMandate(h, m, mandates[m])
  }

  ghost predicate ConsentShape(c: ConsentRow, clock: Instant) {
    && (c.status == Verified || c.status == Consumed <==> c.verifiedAt.Some?)
    && (c.verifiedAt.Some? ==> c.verifiedAt.value < c.expiresAt && c.verifiedAt.value <= clock)
    && (c.status == Consumed <==> c.consumedAt.Some?)
    && (c.consumedAt.Some? ==> c.verifiedAt.Some? && c.verifiedAt.value <= c.consumedAt.value < c.expiresAt)
  }

  /** A consumed consent belongs to an activated mandate and matches it in every bound field. */
  ghost predicate ConsumedFor(h: Hasher, db: Db, c: ConsentRow) {
    && c.mandateId in db.mandates
    && var row := db.mandates[c.mandateId];
      && row.status != DRAFT
      && c.principalId == row.terms.principalId && c.agentId == row.terms.agentId
      && row.termsHash == Some(c.termsHash) && row.activatedAt == c.consumedAt
  }

  ghost predicate ExactlyOneConsumed(db: Db, m: Id) {
    exists c :: (c in db.consents && db.consents[c].mandateId == m && db.consents[c].status == Consumed)
      && forall d :: d in db.consents && db.consents[d].mandateId == m && db.consents[d].status == Consumed ==> d == c
  }

  ghost predicate Inv(h: Hasher, s: System) {
    && ProvenMandates(h, s.db.mandates)
    && (forall c :: c in s.db.consents ==> ConsentShape(s.db.consents[c], s.clock))
    && (forall c :: c in s.db.consents && s.db.consents[c].status == Consumed ==> ConsumedFor(h, s.db, s.db.consents[c]))
    && (forall m :: m in s.db.mandates && s.db.mandates[m].status != DRAFT ==> ExactlyOneConsumed(s.db, m))
  }

  /** Rows that no transaction may rewrite: terms never change, an activation proof is never undone. */
  ghost predicate Evolves(h: Hasher, before: map<Id, MandateRow>, after: map<Id, MandateRow>) {
    && ProvenMandates(h, after)
    && forall m :: m in before ==>
      && m in after && after[m].terms == before[m].terms
      && (before[m].status != DRAFT ==>
           && after[m].status != DRAFT && after[m].termsHash == before[m].termsHash
           && after[m].activatedAt == before[m].activatedAt
           && after[m].principalSignature == before[m].principalSignature)
  }

  ghost predicate TerminalKept(before: Db, after: Db) {
    forall c :: c in before.consents && before.consents[c].status in {Consumed, Rejected, Expired} ==>
      c in after.consents && after.consents[c] == before.consents[c]
  }

  lemma SameConsumed(db: Db, db': Db, m: Id)
    requires ExactlyOneConsumed(db, m)
    requires forall c :: (c in db.consents && db.consents[c].mandateId == m && db.consents[c].status == Consumed)
                    <==> (c in db'.consents && db'.consents[c].mandateId == m && db'.consents[c].status == Consumed)
    ensures ExactlyOneConsumed(db', m)
  {
  }

  /** Writing one consent that neither is nor was consumed keeps everything. */
  lemma ConsentWriteKeeps(h: Hasher, s: System, c: Id, row: ConsentRow, now: Instant)
    requires Inv(h, s) && s.clock <= now && row.status != Consumed && ConsentShape(row, now)
    requires c in s.db.consents ==> s.db.consents[c].status !in {Consumed, Rejected, Expired}
    ensures var db' := s.db.(consents := s.db.consents[c := row]);
      Inv(h, System(db', now)) && Evolves(h, s.db.mandates, db'.mandates) && TerminalKept(s.db, db')
  {
    var db' := s.db.(consents := s.db.consents[c := row]);
    forall d | d in db'.consents && db'.consents[d].status == Consumed ensures ConsumedFor(h, db', db'.consents[d]) {
      assert ConsumedFor(h, s.db, s.db.consents[d]);
    }
    forall m | m in db'.mandates && db'.mandates[m].status != DRAFT ensures ExactlyOneConsumed(db', m) {
      SameConsumed(s.db, db', m);
    }
  }

  /** Writing one mandate without touching its terms or its activation proof keeps everything. */
  lemma MandateWriteKeeps(h: Hasher, s: System, m: Id, row: MandateRow, now: Instant)
    requires Inv(h, s) && s.clock <= now && ProvenMandate(h, m, row)
    requires m !in s.db.mandates ==> row.status == DRAFT
    requires m in s.db.mandates ==>
      var old' := s.db.mandates[m];
      && old'.terms == row.terms && (old'.status == DRAFT <==> row.status == DRAFT)
      && old'.termsHash == row.termsHash && old'.activatedAt == row.activatedAt
      && old'.principalSignature == row.principalSignature
    ensures var db' := s.db.(mandates := s.db.mandates[m := row]);
      Inv(h, System(db', now)) && Evolves(h, s.db.mandates, db'.mandates) && TerminalKept(s.db, db')
  {
    var db' := s.db.(mandates := s.db.mandates[m := row]);
    forall d | d in db'.consents && db'.consents[d].status == Consumed ensures ConsumedFor(h, db', db'.consents[d]) {
      assert ConsumedFor(h, s.db, s.db.consents[d]);
    }
    forall n | n in db'.mandates && db'.mandates[n].status != DRAFT ensures ExactlyOneConsumed(db', n) {
      SameConsumed(s.db, db', n);
    }
  }

  lemma IdleKeeps(h: Hasher, s: System, now: Instant)
    requires Inv(h, s) && s.clock <= now
    ensures Inv(h, System(s.db, now)) && Evolves(h, s.db.mandates, s.db.mandates) && TerminalKept(s.db, s.db)
  {
  }

  lemma ActivateKeeps(h: Hasher, s: System, input: ActivateInput)
    requires Inv(h, s) && s.clock <= input.now && Answered(h, s.db, input)
    ensures var db' := Activated(h, s.db, input).1;
      Inv(h, System(db', input.now)) && Evolves(h, s.db.mandates, db'.mandates) && TerminalKept(s.db, db')
  {
    var db, db' := s.db, Activated(h, s.db, input).1;
    if db' == db {
      IdleKeeps(h, s, input.now);
      return;
    }
    var m, p := input.mandateId, input.pick.value;
    assert Matches(db.consents[p], db.mandates[m].terms, h.terms(db.mandates[m].terms), input.now);
    assert ConsentShape(db.consents[p], s.clock);
    forall d | d in db'.consents && db'.consents[d].status == Consumed ensures ConsumedFor(h, db', db'.consents[d]) {
      if d != p { assert ConsumedFor(h, db, db.consents[d]); }
    }
    forall d | d in db'.consents && db'.consents[d].mandateId == m && db'.consents[d].status == Consumed ensures d == p {
      assert d == p || ConsumedFor(h, db, db.consents[d]);
    }
    assert db'.consents[p].status == Consumed && db'.consents[p].mandateId == m;
    forall n | n in db'.mandates && db'.mandates[n].status != DRAFT ensures ExactlyOneConsumed(db', n) {
      if n != m { SameConsumed(db, db', n); }
    }
  }

  lemma NextKeeps(h: Hasher, s: System, tick: Tick)
    requires Inv(h, s)
    ensures var s' := Next(h, s, tick);
      Inv(h, s') && Evolves(h, s.db.mandates, s'.db.mandates) && TerminalKept(s.db, s'.db)
  {
    hide Inv, Evolves, TerminalKept;
    var s' := Next(h, s, tick);
    if tick.step.ActivateStep? && s'.db != s.db {
      ActivateKeeps(h, s, tick.step.input);
    } else if s'.db == s.db {
      IdleKeeps(h, s, s'.clock);
    } else if s'.db.mandates != s.db.mandates {
      var m := match tick.step
        case DraftStep(terms, key) => terms.mandateId
        case TouchStep(m) => m
        case RevokeStep(m, key) => m
        case _ => "";
      RowsOf(h, s);
      MandateWriteKeeps(h, s, m, s'.db.mandates[m], s'.clock);
    } else {
      var c := match tick.step
        case StartStep(start) => start.consentId
        case AttachStep(c, session) => c
        case ResultStep(c, result) => c
        case _ => "";
      RowsOf(h, s);
      ConsentWriteKeeps(h, s, c, s'.db.consents[c], s'.clock);
    }
  }

  lemma RowsOf(h: Hasher, s: System)
    requires Inv(h, s)
    ensures ProvenMandates(h, s.db.mandates)
    ensures forall c :: c in s.db.consents ==> ConsentShape(s.db.consents[c], s.clock)
  {
  }

  /** Over every interleaving of drafts, consents, provider results, activations, revocations and
      expiries: an activated mandate has exactly one consumed consent, a draft has none, and the
      consumed consent matches the mandate and was verified, then consumed, before it expired. */
  lemma {:induction false} EveryActivationConsumedOneConsent(h: Hasher, s: System, run: seq<Tick>)
    requires Inv(h, s)
    ensures var s' := Run(h, s, run);
      && Inv(h, s')
      && forall m :: m in s'.db.mandates ==>
           if s'.db.mandates[m].activatedAt.Some? then ExactlyOneConsumed(s'.db, m)
           else forall c :: c in s'.db.consents && s'.db.consents[c].mandateId == m ==> s'.db.consents[c].status != Consumed
    decreases |run|
  {
    if run != [] {
      NextKeeps(h, s, run[0]);
      EveryActivationConsumedOneConsent(h, Next(h, s, run[0]), run[1..]);
    } else {
      forall c | c in s.db.consents && s.db.consents[c].status == Consumed
        ensures s.db.mandates[s.db.consents[c].mandateId].status != DRAFT
      {
        assert ConsumedFor(h, s.db, s.db.consents[c]);
      }
    }
  }

  /** Consumed, rejected and expired consents, mandate terms and activation proofs never change again. */
  lemma {:induction false} SettledForever(h: Hasher, s: System, run: seq<Tick>)
    requires Inv(h, s)
    ensures TerminalKept(s.db, Run(h, s, run).db) && Evolves(h, s.db.mandates, Run(h, s, run).db.mandates)
    decreases |run|
  {
    if run != [] {
      NextKeeps(h, s, run[0]);
      SettledForever(h, Next(h, s, run[0]), run[1..]);
    }
  }

  /** What ended has ended. */
  ghost predicate EndedKept(before: map<Id, MandateRow>, after: map<Id, MandateRow>) {
    forall m :: m in before && before[m].status in {REVOKED, EXPIRED} ==> m in after && after[m] == before[m]
  }

  lemma NextKeepsEnded(h: Hasher, s: System, tick: Tick)
    ensures EndedKept(s.db.mandates, Next(h, s, tick).db.mandates)
  {
    hide Answered, IsNewestPick, Matches;
  }

  /** A revoked or expired mandate never changes again: no later activation, consent or clock reading gives
      it authority back. */
  lemma {:induction false} AuthorityNeverReturns(h: Hasher, s: System, run: seq<Tick>, m: Id, now: Instant)
    requires m in s.db.mandates && s.db.mandates[m].status in {REVOKED, EXPIRED}
    ensures var mandates := Run(h, s, run).db.mandates;
      m in mandates && mandates[m] == s.db.mandates[m] && !AuthorityValid(h, mandates[m], now)
    decreases |run|
  {
    hide Next;
    if run != [] {
      NextKeepsEnded(h, s, run[0]);
      AuthorityNeverReturns(h, Next(h, s, run[0]), run[1..], m, now);
    }
  }

  lemma InitialSystem(h: Hasher, clock: Instant)
    ensures Inv(h, System(Db(map[], map[]), clock))
  {
  }

  // ---------- The services' transactions, over the stored rows ----------

  class MandateStore {
    const h: Hasher
    var mandates: map<Id, MandateRow>
    var consents: map<Id, ConsentRow>

    function Rows(): Db
      reads this
    {
      Db(mandates, consents)
    }

    constructor (h: Hasher)
      ensures this.h == h && Rows() == Db(map[], map[])
    {
      this.h := h;
      mandates, consents := map[], map[];
    }

    method ConsumeInTransaction(terms: MandateTerms, termsHash: Digest, now: Instant, pick: Option<Id>, latest: Option<Id>)
      returns (r: Result<Id, MandateError>)
      requires IsMatchingPick(Rows(), terms, termsHash, now, pick)
      requires IsLatestPick(Rows(), terms.mandateId, latest)
      modifies this`consents
      ensures pick.None? ==> r == Err(ConsentFailure(old(Rows()), terms, termsHash, now, latest)) && consents == old(consents)
      ensures pick.Some? ==> r == Ok(pick.value)
      ensures pick.Some? ==> (consents ==
        old(consents)[pick.value := old(consents)[pick.value].(status := Consumed, consumedAt := Some(now))])
    {
      if pick.None? {
        if latest.None? { return Err(ConsentRequired); }
        var c := consents[latest.value];
        if c.termsHash != termsHash || c.principalId != terms.principalId || c.agentId != terms.agentId {
          return Err(ConsentBindingMismatch);
        }
        if c.status == Pending || c.status == Preparing { return Err(ConsentPending); }
        if c.status == Expired || c.expiresAt <= now { return Err(ConsentExpired); }
        return Err(ConsentRejected);
      }
      var matching := consents[pick.value];
      consents := consents[pick.value := matching.(status := Consumed, consumedAt := Some(now))];
      return Ok(pick.value);
    }

    method Activate(input: ActivateInput) returns (r: Result<MandateRow, MandateError>)
      requires Answered(h, Rows(), input)
      requires input.mandateId in mandates ==> mandates[input.mandateId].terms.mandateId == input.mandateId
      modifies this
      ensures (r, Rows()) == Activated(h, old(Rows()), input)
    {
      if ActivationKeyElsewhere(Rows(), input.mandateId, input.key) { return Err(IdempotencyConflict); }
      if input.mandateId !in mandates { return Err(NotFound); }
      var row := mandates[input.mandateId];
      if row.status != DRAFT {
        if row.activationKey == Some(input.key) { return Ok(row); }
        return Err(MandateNotActive);
      }
      if row.terms.expiresAt <= input.now { return Err(MandateExpired); }
      var termsHash := h.terms(row.terms);
      var proof := ConsumeInTransaction(row.terms, termsHash, input.now, input.pick, input.latest);
      if proof.Err? { return Err(proof.error); }
      row := row.(status := ACTIVE, termsHash := Some(termsHash), principalSignature := Some(input.signature));
      row := row.(activationKey := Some(input.key), activatedAt := Some(input.now));
      mandates := mandates[input.mandateId := row];
      return Ok(row);
    }

    method Revoke(mandateId: Id, key: Id, now: Instant) returns (r: Result<MandateRow, MandateError>)
      modifies this
      ensures (r, Rows()) == Revoked(old(Rows()), mandateId, key, now)
    {
      if RevocationKeyElsewhere(Rows(), mandateId, key) { return Err(IdempotencyConflict); }
      if mandateId !in mandates { return Err(NotFound); }
      var row := mandates[mandateId];
      if row.status == REVOKED { return Ok(row); }
      if row.status != ACTIVE {
        return Err(if row.status == EXPIRED then MandateExpired else MandateNotActive);
      }
      if row.terms.expiresAt <= now {
        mandates := mandates[mandateId := PersistExpiry(row, now)];
        return Err(MandateExpired);
      }
      row := row.(status := REVOKED, revokedAt := Some(now), revocationKey := Some(key));
      mandates := mandates[mandateId := row];
      return Ok(row);
    }

    method ApplyResult(consentId: Id, result: ProviderStatus, now: Instant) returns (r: Result<ConsentRow, MandateError>)
      modifies this
      ensures (r, Rows()) == ResultApplied(old(Rows()), consentId, result, now)
    {
      if consentId !in consents { return Err(NotFound); }
      var row := consents[consentId];
      if Settled(row.status) { return Ok(row); }
      if row.assessment == None { return Err(NotReady); }
      var status := if row.expiresAt <= now then Expired else PublicStatus(result);
      row := row.(status := status, verifiedAt := if status == Verified then Some(now) else None);
      consents := consents[consentId := row];
      return Ok(row);
    }
  }
}
